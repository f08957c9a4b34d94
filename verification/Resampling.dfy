// What the streaming resampler is supposed to compute: linear interpolation of
// the whole source at the rational positions k * sourceRate / outputRate.
module Resampling {
  import opened Arithmetic

  // Value of the source at a real position; the last sample is held.
  ghost function Interpolate(source: seq<real>, position: real): real
    requires 0.0 <= position < |source| as real
  {
    var j := position.Floor;
    if j + 1 < |source|
    then source[j] + (source[j + 1] - source[j]) * (position - j as real)
    else source[j]
  }

  // Position of output sample k on the source axis.
  ghost function Position(k: nat, s: nat, o: nat): real
    requires o > 0
  {
    (k * s) as real / o as real
  }

  // Output samples that exist once n source frames have arrived.
  function Emitted(n: nat, s: nat, o: nat): nat
    requires s > 0
  {
    if n == 0 then 0 else (n - 1) * o / s + 1
  }

  // Output length of the complete source, ceil(n * o / s).
  function Target(n: nat, s: nat, o: nat): (t: nat)
    requires s > 0
  {
    LtCeil(-1, n * o, s);
    CeilDiv(n * o, s)
  }

  lemma EmittedIff(k: nat, n: nat, s: nat, o: nat)
    requires s > 0 && n > 0
    ensures k < Emitted(n, s, o) <==> k * s <= (n - 1) * o
  {
    LeFloor(k, (n - 1) * o, s);
  }

  lemma TargetIff(k: nat, n: nat, s: nat, o: nat)
    requires s > 0
    ensures k < Target(n, s, o) <==> k * s < n * o
  {
    LtCeil(k, n * o, s);
  }

  lemma EmittedWithinTarget(n: nat, s: nat, o: nat)
    requires s > 0 && o > 0
    ensures Emitted(n, s, o) <= Target(n, s, o)
  {
    if n > 0 {
      var k := Emitted(n, s, o) - 1;
      EmittedIff(k, n, s, o);
      TargetIff(k, n, s, o);
      MulMonoStrict(n - 1, n, o);
    }
  }

  lemma EmittedMono(n: nat, m: nat, s: nat, o: nat)
    requires s > 0 && n <= m
    ensures Emitted(n, s, o) <= Emitted(m, s, o)
    ensures Target(n, s, o) <= Target(m, s, o)
  {
    if n > 0 {
      MulMono(n - 1, m - 1, o);
      DivMono((n - 1) * o, (m - 1) * o, s);
    }
    MulMono(n, m, o);
    DivMono(-(m * o), -(n * o), s);
  }

  lemma PositionInRange(k: nat, n: nat, s: nat, o: nat)
    requires s > 0 && o > 0 && k < Target(n, s, o)
    ensures 0.0 <= Position(k, s, o) < n as real
    ensures 0 <= Position(k, s, o).Floor == k * s / o < n
    ensures Position(k, s, o) - (k * s / o) as real == (k * s - k * s / o * o) as real / o as real
  {
    TargetIff(k, n, s, o);
    RealFloor(k * s, o);
    LeFloor(0, k * s, o);
    DivBounds(k * s, o);
    if n <= k * s / o { MulMono(n, k * s / o, o); }
  }

  // Output sample k of the complete source.
  ghost function Sample(source: seq<real>, s: nat, o: nat, k: nat): real
  {
    if s > 0 && o > 0 && k < Target(|source|, s, o) then
      PositionInRange(k, |source|, s, o);
      Interpolate(source, Position(k, s, o))
    else 0.0
  }

  // The first n output samples of a source.
  ghost function Output(source: seq<real>, s: nat, o: nat, n: nat): (out: seq<real>)
    ensures |out| == n
  {
    seq(n, k requires 0 <= k < n => Sample(source, s, o, k))
  }

  // Queueing one more output sample behind those from `from` on.
  lemma OutputAppend(queue: seq<real>, source: seq<real>, s: nat, o: nat, from: nat, n: nat)
    requires from <= n
    ensures queue + Output(source, s, o, n + 1)[from..]
         == (queue + Output(source, s, o, n)[from..]) + [Sample(source, s, o, n)]
  {}

  // The batch conversion of a whole source: ceil(N * o / s) interpolated samples.
  ghost function Batch(source: seq<real>, s: nat, o: nat): (out: seq<real>)
    requires s > 0
    ensures |out| == Target(|source|, s, o)
  {
    Output(source, s, o, Target(|source|, s, o))
  }

  // Arrived source frames fix their output samples for good: later frames only
  // append. Sample k is decided by the first ceil(k*s/o)+1 source frames.
  lemma SampleStable(source: seq<real>, more: seq<real>, s: nat, o: nat, k: nat)
    requires s > 0 && o > 0 && k < Emitted(|source|, s, o)
    ensures Sample(source + more, s, o, k) == Sample(source, s, o, k)
  {
    hide Emitted, Target;
    var n := |source|;
    EmittedWithinTarget(n, s, o);
    EmittedMono(n, |source + more|, s, o);
    PositionInRange(k, n, s, o);
    PositionInRange(k, |source + more|, s, o);
    if k * s / o == n - 1 {
      LastIsExact(k, n, s, o);
    }
  }

  // A decided sample in the last source interval sits exactly on the last frame.
  lemma LastIsExact(k: nat, n: nat, s: nat, o: nat)
    requires s > 0 && o > 0 && 0 < n && k < Emitted(n, s, o) && k * s / o == n - 1
    ensures Position(k, s, o) == (n - 1) as real
  {
    EmittedIff(k, n, s, o);
    DivBounds(k * s, o);
    assert k * s == (n - 1) * o;
    RealFloor(k * s, o);
  }

  lemma OutputStable(source: seq<real>, more: seq<real>, s: nat, o: nat, n: nat)
    requires s > 0 && o > 0 && n <= Emitted(|source|, s, o)
    ensures Output(source + more, s, o, n) == Output(source, s, o, n)
  {
    forall k | 0 <= k < n
      ensures Output(source + more, s, o, n)[k] == Output(source, s, o, n)[k]
    {
      SampleStable(source, more, s, o, k);
    }
  }

  // The arithmetic the streaming loop performs for sample k when source frame
  // `index` arrives agrees with interpolation at position k*s/o.
  lemma StreamedSample(source: seq<real>, s: nat, o: nat, index: nat, k: nat)
    requires s > 0 && o > 0 && |source| == index + 1
    requires Emitted(index, s, o) <= k < Emitted(index + 1, s, o)
    ensures Sample(source, s, o, k) ==
            if index == 0 then source[0]
            else source[index - 1]
                 + (source[index] - source[index - 1]) * ((k * s - (index - 1) * o) as real / o as real)
  {
    EmittedIff(k, index + 1, s, o);
    EmittedWithinTarget(index + 1, s, o);
    PositionInRange(k, index + 1, s, o);
    var j := k * s / o;
    DivBounds(k * s, o);
    if index > 0 {
      EmittedIff(k, index, s, o);
      assert (index - 1) * o < k * s;
      if k * s == index * o {
        LeFloor(index, k * s, o);
        assert j == index;
        assert k * s - (index - 1) * o == o;
      } else {
        LeFloor(index - 1, k * s, o);
        assert j == index - 1;
      }
    }
  }

  // The tail: every position past the last source frame holds that frame.
  lemma HeldSample(source: seq<real>, s: nat, o: nat, k: nat)
    requires s > 0 && o > 0 && |source| > 0
    requires Emitted(|source|, s, o) <= k < Target(|source|, s, o)
    ensures Sample(source, s, o, k) == source[|source| - 1]
  {
    EmittedIff(k, |source|, s, o);
    PositionInRange(k, |source|, s, o);
    LeFloor(|source| - 1, k * s, o);
  }
}
