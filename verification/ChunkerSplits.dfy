// Exactly which ways of splitting a text into deltas leave no trace.
module ChunkerSplits {
  import opened ChunkerModel

  // --- one split --------------------------------------------------------------

  // The chunks and the buffer of text and more, split between them.
  function Split(l: Limits, text: string, more: string): Extraction
    requires Usable(l)
  {
    var first := Extract(l, text, false);
    var second := Extract(l, first.rest + more, false);
    Extraction(first.chunks + second.chunks, second.rest)
  }

  // Behind a complete cut the whole text loses the blanks that follow.
  lemma {:induction false} AfterCutAppend(l: Limits, text: string, more: string)
    requires Usable(l) && AfterCut(l, text)
    ensures var rest := Extract(l, TrimLeft(more), false);
      Extract(l, text + more, false) == Extraction(Extract(l, text, false).chunks + rest.chunks, rest.rest)
    decreases |text|
  {
    hide Extract, Cut, TrimLeft, Piece;
    ExtractStep(l, text, false);
    var cut := Cut(l, text, false);
    var rest := TrimLeft(text[cut..]);
    CutStable(l, text, more);
    ExtractStep(l, text + more, false);
    SliceAppend(text, more, cut);
    EmptyExtract(l, false);
    if rest == "" {
      TrimLeftBlank(text[cut..], more);
      PrependPiece(Piece(text[..cut]), Extraction([], ""), Extract(l, TrimLeft(more), false));
    } else {
      TrimLeftAppend(text[cut..], more);
      AfterCutAppend(l, rest, more);
      PrependPiece(Piece(text[..cut]), Extract(l, rest, false), Extract(l, TrimLeft(more), false));
    }
  }

  lemma {:induction false} TrimLeftBlank(s: string, more: string)
    requires TrimLeft(s) == ""
    ensures TrimLeft(s + more) == TrimLeft(more)
  {
    if s == "" {
      assert s + more == more;
    } else {
      assert (s + more)[1..] == s[1..] + more;
      TrimLeftBlank(s[1..], more);
    }
  }

  // Two texts are cut alike: walking both from cut to cut, they become the same
  // text before their chunks differ. Pieces without ink are passed over.
  predicate Alike(l: Limits, x: string, y: string)
    requires Usable(l)
    decreases |x| + |y|
  {
    CutPositive(l, x, false);
    CutPositive(l, y, false);
    var a, b := Cut(l, x, false), Cut(l, y, false);
    if x == y then true
    else if a > 0 && Piece(x[..a]) == [] then Alike(l, TrimLeft(x[a..]), y)
    else if b > 0 && Piece(y[..b]) == [] then Alike(l, x, TrimLeft(y[b..]))
    else a > 0 && b > 0 && Piece(x[..a]) == Piece(y[..b]) && Alike(l, TrimLeft(x[a..]), TrimLeft(y[b..]))
  }

  lemma {:induction false} AlikeExact(l: Limits, x: string, y: string)
    requires Usable(l)
    ensures Alike(l, x, y) <==> Extract(l, x, false) == Extract(l, y, false)
    decreases |x| + |y|
  {
    hide Extract, Cut, Piece, TrimLeft;
    ExtractStep(l, x, false);
    ExtractStep(l, y, false);
    var a, b := Cut(l, x, false), Cut(l, y, false);
    var p, q := Piece(x[..a]), Piece(y[..b]);
    OnePiece(x[..a]);
    OnePiece(y[..b]);
    if x == y {
    } else if a > 0 && p == [] {
      AlikeExact(l, TrimLeft(x[a..]), y);
      assert [] + Extract(l, TrimLeft(x[a..]), false).chunks == Extract(l, TrimLeft(x[a..]), false).chunks;
    } else if b > 0 && q == [] {
      AlikeExact(l, x, TrimLeft(y[b..]));
      assert [] + Extract(l, TrimLeft(y[b..]), false).chunks == Extract(l, TrimLeft(y[b..]), false).chunks;
    } else if a > 0 && b > 0 {
      AlikeExact(l, TrimLeft(x[a..]), TrimLeft(y[b..]));
      SameHead(p, q, Extract(l, TrimLeft(x[a..]), false).chunks, Extract(l, TrimLeft(y[b..]), false).chunks);
    }
  }

  lemma OnePiece(s: string)
    ensures Piece(s) == [] || |Piece(s)| == 1
  {
  }

  lemma SameHead(p: seq<string>, q: seq<string>, a: seq<string>, b: seq<string>)
    requires |p| == |q| == 1
    ensures p + a == q + b <==> p == q && a == b
  {
    if p + a == q + b {
      assert (p + a)[0] == p[0] && (q + b)[0] == q[0];
      assert (p + a)[1..] == a && (q + b)[1..] == b;
    }
  }

  // Blanks in front of it do not matter to what is cut from it.
  predicate LeadFree(l: Limits, more: string)
    requires Usable(l)
  {
    Alike(l, more, TrimLeft(more))
  }

  // A split leaves no trace exactly when it is not behind a complete cut, or the
  // blanks that begin the second part do not matter.
  lemma SplitExact(l: Limits, text: string, more: string)
    requires Usable(l)
    ensures Split(l, text, more) == Extract(l, text + more, false) <==> !AfterCut(l, text) || LeadFree(l, more)
  {
    hide Extract, Cut, TrimLeft, Alike;
    if AfterCut(l, text) {
      AfterCutAppend(l, text, more);
      AlikeExact(l, more, TrimLeft(more));
      assert "" + more == more;
      var first := Extract(l, text, false).chunks;
      var some, bare := Extract(l, more, false).chunks, Extract(l, TrimLeft(more), false).chunks;
      assert (first + some)[|first|..] == some && (first + bare)[|first|..] == bare;
    } else {
      ExtractAppend(l, text, more);
    }
  }

  // In terms of the first cut: blanks do not matter when they merely shift it...
  lemma ShiftedCut(l: Limits, more: string)
    requires Usable(l) && Cut(l, TrimLeft(more), false) > 0
    requires Cut(l, more, false) == |more| - |TrimLeft(more)| + Cut(l, TrimLeft(more), false)
    ensures LeadFree(l, more)
  {
    hide Extract, Cut, Piece, Alike;
    var bare := TrimLeft(more);
    AlikeExact(l, more, bare);
    var lead := |more| - |bare|;
    var cut := Cut(l, bare, false);
    ExtractStep(l, more, false);
    ExtractStep(l, bare, false);
    TrimLeftDrops(more);
    assert more[lead + cut..] == bare[cut..];
    assert more[..lead + cut] == more[..lead] + bare[..cut];
    PieceShift(more[..lead], bare[..cut]);
  }

  lemma {:induction false} TrimLeftDrops(s: string)
    ensures s[|s| - |TrimLeft(s)|..] == TrimLeft(s)
    ensures forall i | 0 <= i < |s| - |TrimLeft(s)| :: Blank(s[i])
  {
    if s != "" && Blank(s[0]) {
      TrimLeftDrops(s[1..]);
      var k := |s| - |TrimLeft(s)|;
      assert s[1..][k - 1..] == s[k..];
      forall i | 0 <= i < k ensures Blank(s[i]) { assert i > 0 ==> s[1..][i - 1] == s[i]; }
    }
  }

  lemma {:induction false} PieceShift(lead: string, s: string)
    requires forall i | 0 <= i < |lead| :: Blank(lead[i])
    ensures Piece(lead + s) == Piece(s)
  {
    if lead == "" {
      assert lead + s == s;
    } else {
      assert Space(lead[0]);
      assert (lead + s)[1..] == lead[1..] + s;
      PieceShift(lead[1..], s);
    }
  }

  // ...and they do matter when nothing is cut yet: they count in the buffer.
  lemma UncutLead(l: Limits, more: string)
    requires Usable(l) && more != "" && Blank(more[0]) && Cut(l, more, false) == 0
    ensures !LeadFree(l, more)
  {
    hide Alike;
    AlikeExact(l, more, TrimLeft(more));
    ExtractStep(l, more, false);
    RestUnblank(l, TrimLeft(more));
  }

  lemma {:induction false} RestUnblank(l: Limits, text: string)
    requires Usable(l) && (text != "" ==> !Blank(text[0]))
    ensures var rest := Extract(l, text, false).rest; rest != "" ==> !Blank(rest[0])
    decreases |text|
  {
    hide Cut;
    ExtractStep(l, text, false);
    if Cut(l, text, false) > 0 { RestUnblank(l, TrimLeft(text[Cut(l, text, false)..])); }
  }

  // --- any number of splits ---------------------------------------------------

  // After every delta the chunks so far and the buffer are those of the whole
  // text so far.
  ghost predicate Level(l: Limits, text: string, deltas: seq<string>)
    requires Usable(l)
  {
    forall j | 0 <= j <= |deltas| :: LevelAt(l, text, deltas, j)
  }

  ghost predicate LevelAt(l: Limits, text: string, deltas: seq<string>, j: nat)
    requires Usable(l) && j <= |deltas|
  {
    var first := Extract(l, text, false);
    var fed := Feed(l, first.rest, deltas[..j]);
    Extract(l, text + Joined(deltas[..j]), false) == Extraction(first.chunks + fed.chunks, fed.rest)
  }

  // No delta behind a complete cut has blanks in front that matter.
  predicate Harmless(l: Limits, text: string, deltas: seq<string>)
    requires Usable(l)
    decreases |deltas|
  {
    deltas == [] || ((AfterCut(l, text) ==> LeadFree(l, deltas[0])) && Harmless(l, text + deltas[0], deltas[1..]))
  }

  lemma LevelNow(l: Limits, text: string, deltas: seq<string>)
    requires Usable(l)
    ensures LevelAt(l, text, deltas, 0)
  {
    assert deltas[..0] == [] && text + Joined([]) == text;
    assert Extract(l, text, false).chunks + [] == Extract(l, text, false).chunks;
  }

  lemma OneDelta(l: Limits, buffer: string, delta: string)
    requires Usable(l)
    ensures Feed(l, buffer, [delta]) == Extract(l, buffer + delta, false)
  {
    hide Extract;
    var step := Extract(l, buffer + delta, false);
    assert [delta][1..] == [] && step.chunks + [] == step.chunks;
  }

  lemma LevelOne(l: Limits, text: string, deltas: seq<string>)
    requires Usable(l) && deltas != []
    ensures LevelAt(l, text, deltas, 1) <==> Split(l, text, deltas[0]) == Extract(l, text + deltas[0], false)
  {
    hide Extract, Cut;
    var first := Extract(l, text, false);
    var step := Extract(l, first.rest + deltas[0], false);
    assert deltas[..1] == [deltas[0]];
    OneDelta(l, first.rest, deltas[0]);
    assert Joined([deltas[0]]) == deltas[0] by { assert [deltas[0]][..0] == [] && "" + deltas[0] == deltas[0]; }
  }

  // What the first delta left is where the next one begins.
  lemma LevelNext(l: Limits, text: string, deltas: seq<string>, j: nat)
    requires Usable(l) && deltas != [] && j < |deltas|
             && Split(l, text, deltas[0]) == Extract(l, text + deltas[0], false)
    ensures LevelAt(l, text, deltas, j + 1) <==> LevelAt(l, text + deltas[0], deltas[1..], j)
  {
    hide Extract, Cut;
    var first := Extract(l, text, false);
    var step := Extract(l, first.rest + deltas[0], false);
    var some := deltas[..j + 1];
    assert some[0] == deltas[0] && some[1..] == deltas[1..][..j];
    JoinedFirst(some);
    var more := Feed(l, step.rest, some[1..]);
    assert (first.chunks + step.chunks) + more.chunks == first.chunks + (step.chunks + more.chunks);
    assert text + Joined(some) == text + deltas[0] + Joined(some[1..]);
  }

  // The exact condition: every split leaves no trace at any time if and only if
  // every delta is harmless where it arrives.
  lemma {:induction false} LevelExact(l: Limits, text: string, deltas: seq<string>)
    requires Usable(l)
    ensures Level(l, text, deltas) <==> Harmless(l, text, deltas)
    decreases |deltas|
  {
    hide Extract, Cut, LevelAt, Split, LeadFree;
    LevelNow(l, text, deltas);
    if deltas != [] {
      var d := deltas[0];
      LevelOne(l, text, deltas);
      SplitExact(l, text, d);
      LevelExact(l, text + d, deltas[1..]);
      if Split(l, text, d) == Extract(l, text + d, false) {
        forall j | 0 <= j < |deltas|
          ensures LevelAt(l, text, deltas, j + 1) <==> LevelAt(l, text + d, deltas[1..], j)
        {
          LevelNext(l, text, deltas, j);
        }
        forall j | 0 < j <= |deltas| ensures LevelAt(l, text, deltas, j) <==> LevelAt(l, text + d, deltas[1..], j - 1) {
          LevelNext(l, text, deltas, j - 1);
        }
      }
    }
  }

  // The theorem: harmless deltas speak the chunks of pushing the text whole.
  lemma IncrementalIsBatch(l: Limits, deltas: seq<string>)
    requires Usable(l) && Harmless(l, "", deltas)
    ensures Spoken(l, deltas) == Spoken(l, [Joined(deltas)])
  {
    hide Extract, Cut, Harmless;
    LevelExact(l, "", deltas);
    assert LevelAt(l, "", deltas, |deltas|);
    EmptyExtract(l, false);
    assert deltas[..|deltas|] == deltas && "" + Joined(deltas) == Joined(deltas);
    var fed := Feed(l, "", deltas);
    assert [] + fed.chunks == fed.chunks;
    OneDelta(l, "", Joined(deltas));
    assert "" + Joined(deltas) == Joined(deltas);
  }

  // No delta but the first begins with a blank: a caller can see this without
  // knowing the buffer.
  predicate NoLead(deltas: seq<string>) { forall i | 0 < i < |deltas| && deltas[i] != "" :: !Blank(deltas[i][0]) }

  lemma {:induction false} NoLeadHarmless(l: Limits, text: string, deltas: seq<string>)
    requires Usable(l) && NoLead(deltas)
             && (deltas != [] && deltas[0] != "" && AfterCut(l, text) ==> !Blank(deltas[0][0]))
    ensures Harmless(l, text, deltas)
    decreases |deltas|
  {
    hide Extract, AfterCut, Cut, Piece;
    if deltas != [] {
      assert forall i | 0 <= i < |deltas[1..]| :: deltas[1..][i] == deltas[i + 1];
      assert TrimLeft(deltas[0]) == deltas[0] || AfterCut(l, text) ==> TrimLeft(deltas[0]) == deltas[0];
      NoLeadHarmless(l, text + deltas[0], deltas[1..]);
    }
  }

  lemma NoLeadIsBatch(l: Limits, deltas: seq<string>)
    requires Usable(l) && NoLead(deltas)
    ensures Spoken(l, deltas) == Spoken(l, [Joined(deltas)])
  {
    hide Extract, Spoken, Harmless;
    NoneCut(l);
    NoLeadHarmless(l, "", deltas);
    IncrementalIsBatch(l, deltas);
  }

  lemma NoneCut(l: Limits)
    requires Usable(l)
    ensures !AfterCut(l, "")
  {
  }

  // Text without blanks needs no condition at all.
  predicate Unspaced(deltas: seq<string>) {
    forall i | 0 <= i < |deltas| :: forall k | 0 <= k < |deltas[i]| :: !Blank(deltas[i][k])
  }

  lemma UnspacedIsBatch(l: Limits, deltas: seq<string>)
    requires Usable(l) && Unspaced(deltas)
    ensures Spoken(l, deltas) == Spoken(l, [Joined(deltas)])
  {
    hide Spoken;
    NoLeadIsBatch(l, deltas);
  }

  // --- where a split shows ---------------------------------------------------

  lemma CutWhole(l: Limits, text: string)
    requires Usable(l) && l.soft == |text| <= l.hard && Stop(text[l.soft - 1])
    ensures Extract(l, text, false) == Extraction(Piece(text), "")
  {
    assert text[..|text|] == text && text[|text|..] == "";
    CutPositive(l, "", false);
  }

  lemma KeepWhole(l: Limits, text: string)
    requires Usable(l) && l.soft == |text| < l.hard && !Stop(text[l.soft - 1])
    ensures Extract(l, text, false) == Extraction([], text)
    ensures Extract(l, text, true) == Extraction(Piece(text), "")
  {
    assert text[..|text|] == text && text[|text|..] == "";
    CutPositive(l, "", true);
  }

  lemma KeepShort(l: Limits, text: string)
    requires Usable(l) && 0 < |text| < l.soft
    ensures Extract(l, text, false) == Extraction([], text)
    ensures Extract(l, text, true) == Extraction(Piece(text), "")
  {
    assert text[..|text|] == text && text[|text|..] == "";
    CutPositive(l, "", true);
  }

  lemma Inked(text: string)
    requires text != "" && !Space(text[0]) && !Space(text[|text| - 1])
    ensures Piece(text) == [text]
  {}

  // A blank after a complete cut shows where the deltas ended: the second delta is
  // long enough to be cut on its own, its text without the blank is not.
  lemma SplitShows()
    ensures var l := Limits(2, 10); var deltas := ["a!", " ,", "c"];
            && Joined(deltas) == "a! ,c" && !Harmless(l, "", deltas)
            && Spoken(l, deltas) == ["a!", ",", "c"]
            && Spoken(l, [Joined(deltas)]) == ["a!", ",c"]
  {
    var l := Limits(2, 10);
    hide Spoken, Joined, Harmless;
    SplitJoined();
    SplitDeltas(l);
    SplitBatch(l);
    assert Usable(l);
    if Harmless(l, "", ["a!", " ,", "c"]) { IncrementalIsBatch(l, ["a!", " ,", "c"]); }
  }

  lemma SplitJoined()
    ensures Joined(["a!", " ,", "c"]) == "a! ,c"
  {
    JoinThree("a!", " ,", "c");
    hide Joined;
    assert "c" + "" == "c" && " ," + "c" == " ,c" && "a!" + " ,c" == "a! ,c";
  }

  lemma SpokenIs(l: Limits, deltas: seq<string>, chunks: seq<string>, rest: string, last: seq<string>)
    requires Usable(l) && Feed(l, "", deltas) == Extraction(chunks, rest) && Extract(l, rest, true).chunks == last
    ensures Spoken(l, deltas) == chunks + last
  {
    hide Feed, Extract;
  }

  lemma Listed<T>(x: T, y: T, z: T)
    ensures [x] + [y] == [x, y] && ([x] + [y]) + [z] == [x, y, z]
  {}

  lemma SplitDeltas(l: Limits)
    requires l == Limits(2, 10)
    ensures Spoken(l, ["a!", " ,", "c"]) == ["a!", ",", "c"]
  {
    assert Usable(l);
    hide *;
    SplitPieces(l);
    FeedThree(l, "a!", " ,", "c", ["a!"], [","]);
    SpokenIs(l, ["a!", " ,", "c"], ["a!"] + [","], "c", ["c"]);
    Listed("a!", ",", "c");
  }

  lemma SplitBatch(l: Limits)
    requires l == Limits(2, 10)
    ensures Spoken(l, ["a! ,c"]) == ["a!", ",c"]
  {
    assert Usable(l);
    hide *;
    SplitWhole(l);
    FeedOne(l, "a! ,c", ["a!"], ",c");
    SpokenIs(l, ["a! ,c"], ["a!"], ",c", [",c"]);
    Listed("a!", ",c", "");
  }

  lemma JoinThree(a: string, b: string, c: string)
    ensures Joined([a, b, c]) == a + (b + (c + ""))
  {
    assert [a, b, c][1..] == [b, c] && [b, c][1..] == [c] && [c][1..] == [];
    JoinedFirst([a, b, c]);
    JoinedFirst([b, c]);
    JoinedFirst([c]);
    EmptyInk();
  }

  lemma FeedOne(l: Limits, a: string, chunks: seq<string>, rest: string)
    requires Usable(l) && Extract(l, a, false) == Extraction(chunks, rest)
    ensures Feed(l, "", [a]) == Extraction(chunks, rest)
  {
    hide Extract;
    assert [a][1..] == [] && "" + a == a && chunks + [] == chunks;
  }

  // Two deltas cut off completely and one that stays.
  lemma FeedThree(l: Limits, a: string, b: string, c: string, first: seq<string>, second: seq<string>)
    requires Usable(l) && Extract(l, a, false) == Extraction(first, "")
             && Extract(l, b, false) == Extraction(second, "")
    requires Extract(l, c, false) == Extraction([], c)
    ensures Feed(l, "", [a, b, c]) == Extraction(first + second, c)
  {
    hide Extract;
    assert [a, b, c][1..] == [b, c] && [b, c][1..] == [c] && [c][1..] == [];
    assert "" + a == a && "" + b == b && "" + c == c;
    assert Feed(l, "", [c]) == Extraction([], c) by { FeedOne(l, c, [], c); }
    assert Feed(l, "", [b, c]) == Extraction(second, c) by { assert second + [] == second; }
  }

  lemma Stops()
    ensures Stop('!') && Stop(',') && !Stop('c') && !Stop(' ') && !Stop('a')
    ensures !Space('a') && !Space('!') && !Space(',') && !Space('c') && Space(' ')
  {}

  lemma SplitPieces(l: Limits)
    requires l == Limits(2, 10)
    ensures Extract(l, "a!", false) == Extraction(["a!"], "")
    ensures Extract(l, " ,", false) == Extraction([","], "")
    ensures Extract(l, "c", false) == Extraction([], "c") && Extract(l, "c", true) == Extraction(["c"], "")
  {
    hide Extract, Stop, Space, Piece;
    Stops();
    CutWhole(l, "a!");
    CutWhole(l, " ,");
    KeepShort(l, "c");
    Inked("a!");
    Inked("c");
    BlankComma();
  }

  lemma BlankComma()
    ensures Piece(" ,") == [","]
  {
    assert " ,"[1..] == "," && TrimStart(",") == "," && TrimStart(" ,") == "," && TrimEnd(",") == ",";
  }

  lemma FirstAtOne(l: Limits, text: string)
    requires l == Limits(2, 10) && |text| == 5 && Stop(text[1])
    ensures Cut(l, text, false) == 2
  {
    hide Stop;
    assert FirstStop(text, 1, 5) == 1;
  }

  lemma SplitWhole(l: Limits)
    requires l == Limits(2, 10)
    ensures Extract(l, "a! ,c", false) == Extraction(["a!"], ",c")
    ensures Extract(l, ",c", true) == Extraction([",c"], "")
  {
    hide Stop, Space, Piece, TrimLeft, Extract, Cut;
    Stops();
    var text := "a! ,c";
    assert text[..2] == "a!" && text[2..] == " ,c";
    FirstAtOne(l, text);
    LeadingBlank();
    KeepWhole(l, ",c");
    Inked("a!");
    Inked(",c");
    ExtractStep(l, text, false);
    assert ["a!"] + [] == ["a!"];
  }

  lemma LeadingBlank()
    ensures TrimLeft(" ,c") == ",c"
  {
    assert " ,c"[1..] == ",c";
  }
}
