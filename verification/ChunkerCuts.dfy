// Where a text is cut, in its own characters: the end of a sentence outranks a
// comma, and nothing else ends a chunk before the hard limit.
module ChunkerCuts {
  import opened Arithmetic
  import opened ChunkerModel

  const Sentences: string := "。！？!?\n"
  const Commas: string := "、,，;；:："

  predicate Pauses(c: char) { c in Sentences || c in Commas }

  // The last of these characters in front of n ends there; 0 when there is none.
  predicate LastOf(text: string, n: nat, chars: string, end: nat)
    requires n <= |text|
  {
    && end <= n && (end > 0 ==> text[end - 1] in chars) && forall i | end <= i < n :: text[i] !in chars
  }

  // The first pause at or behind the soft limit; at the hard limit the last end of a
  // sentence before, else the last comma, else the limit itself; a flush takes all.
  ghost predicate CutsAt(text: string, soft: nat, hard: nat, flush: bool, cut: nat)
    requires 1 <= soft <= hard
  {
    var n := Min(|text|, hard);
    if exists i | soft - 1 <= i < n :: Pauses(text[i]) then
      soft <= cut <= n && Pauses(text[cut - 1]) && forall i | soft - 1 <= i < cut - 1 :: !Pauses(text[i])
    else if |text| < hard then cut == if flush then |text| else 0
    else if exists i | 0 <= i < soft - 1 :: text[i] in Sentences then
      0 < cut && LastOf(text, soft - 1, Sentences, cut)
    else if exists i | 0 <= i < soft - 1 :: text[i] in Commas then
      0 < cut && LastOf(text, soft - 1, Commas, cut)
    else cut == hard
  }

  lemma Ranks(c: char)
    ensures Priority(c) == 3 <==> c in Sentences
    ensures Priority(c) == 2 <==> c in Commas
    ensures Stop(c) <==> Pauses(c)
    ensures Priority(c) <= 3 && Priority(c) != 1
  {
    var s, m := Sentences, Commas;
    assert c in s <==> c == s[0] || c == s[1] || c == s[2] || c == s[3] || c == s[4] || c == s[5];
    assert c in m <==> c == m[0] || c == m[1] || c == m[2] || c == m[3] || c == m[4] || c == m[5] || c == m[6];
  }

  lemma BestIs(text: string, n: nat)
    requires n <= |text|
    ensures var end := BestStop(text, n);
            if exists i | 0 <= i < n :: text[i] in Sentences then 0 < end && LastOf(text, n, Sentences, end)
            else if exists i | 0 <= i < n :: text[i] in Commas then 0 < end && LastOf(text, n, Commas, end)
            else end == 0
  {
    var end := BestStop(text, n);
    forall i | 0 <= i < n
      ensures (Priority(text[i]) == 3 <==> text[i] in Sentences) && (Priority(text[i]) == 2 <==> text[i] in Commas)
      ensures (Stop(text[i]) <==> Pauses(text[i])) && Priority(text[i]) <= 3 && Priority(text[i]) != 1 {
      Ranks(text[i]);
    }
    hide Priority, BestStop;
  }

  lemma CutExact(l: Limits, text: string, flush: bool)
    requires Usable(l)
    ensures CutsAt(text, l.soft, l.hard, flush, Cut(l, text, flush))
  {
    hide LastOf;
    var until := Min(|text|, l.hard);
    var from := Min(l.soft - 1, until);
    var k := FirstStop(text, from, until);
    forall i | 0 <= i < |text| ensures Stop(text[i]) <==> Pauses(text[i]) { Ranks(text[i]); }
    if |text| >= l.hard { BestIs(text, l.soft - 1); }
    hide Priority, Stop, Pauses, BestStop, FirstStop, LastOf;
  }

  // Without a flush a chunk shorter than the hard limit ends with a pause.
  lemma ShortEndsPaused(l: Limits, text: string)
    requires Usable(l) && 0 < Cut(l, text, false) < l.hard
    ensures Cut(l, text, false) <= |text| && Pauses(text[Cut(l, text, false) - 1])
  {
    CutExact(l, text, false);
    hide Cut;
  }

  // What follows a cut begins with a character that is kept.
  lemma {:induction false} NoLeadingBlank(s: string)
    ensures TrimLeft(s) != "" ==> TrimLeft(s)[0] !in " \t\r\n"
    ensures forall i | 0 <= i < |s| - |TrimLeft(s)| :: s[i] in " \t\r\n"
    ensures |TrimLeft(s)| <= |s| && TrimLeft(s) == s[|s| - |TrimLeft(s)|..]
  {
    if s != "" {
      var b := " \t\r\n";
      assert s[0] in b <==> s[0] == b[0] || s[0] == b[1] || s[0] == b[2] || s[0] == b[3];
      if Blank(s[0]) { NoLeadingBlank(s[1..]); }
    }
  }
}
