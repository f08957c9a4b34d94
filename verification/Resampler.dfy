// The packet-by-packet resampler. Integer counters carry the phase across
// packets; the ghost source remembers what has been pushed.
module Resampler {
  import opened Arithmetic
  import opened Resampling
  import opened PcmRing

  class StreamingLinearResampler {
    const outputRate: nat
    const ring: PCMFrameRing
    var sourceRate: nat
    var inputFrames: nat
    var outputFrames: nat
    var previous: real
    ghost var source: seq<real>

    ghost predicate Valid()
      reads this
    {
      && outputRate > 0
      && inputFrames == |source|
      && (|source| > 0 ==> sourceRate > 0 && previous == source[|source| - 1])
      && (|source| == 0 ==> outputFrames == 0)
    }

    // No tail yet: exactly the samples decided by the source so far.
    ghost predicate Streaming()
      reads this
    {
      Valid() && (sourceRate > 0 ==> outputFrames == Emitted(|source|, sourceRate, outputRate))
    }

    constructor (outputRate: nat, ring: PCMFrameRing)
      requires outputRate > 0
      ensures this.outputRate == outputRate && this.ring == ring
      ensures Streaming() && source == [] && sourceRate == 0
    {
      this.outputRate, this.ring := outputRate, ring;
      sourceRate, inputFrames, outputFrames, previous, source := 0, 0, 0, 0.0, [];
    }

    method Reset()
      requires outputRate > 0
      modifies this
      ensures Streaming() && source == [] && sourceRate == 0
    {
      sourceRate, inputFrames, outputFrames, previous, source := 0, 0, 0, 0.0, [];
    }

    method TargetFrames(frames: nat) returns (t: nat)
      requires sourceRate > 0
      ensures t == Target(frames, sourceRate, outputRate)
    {
      t := CeilDiv(frames * outputRate, sourceRate);
    }

    // Does source frame `index` reach past the next output sample?
    method Due(index: nat) returns (due: bool)
      requires sourceRate > 0
      ensures due <==> outputFrames < Emitted(index + 1, sourceRate, outputRate)
    {
      EmittedIff(outputFrames, index + 1, sourceRate, outputRate);
      due := outputFrames * sourceRate <= index * outputRate;
    }

    // Writes the next output sample, between the previous source frame and `value`.
    method EmitSample(index: int, value: real) returns (stored: bool)
      requires outputRate > 0 && sourceRate > 0 && ring.Valid()
      requires index >= 0 && |source| == inputFrames == index + 1 && source[index] == value
      requires index > 0 ==> previous == source[index - 1]
      requires Emitted(index, sourceRate, outputRate) <= outputFrames < Emitted(index + 1, sourceRate, outputRate)
      modifies this`outputFrames, ring, ring.samples
      ensures ring.Valid()
      ensures stored == (old(ring.used) < ring.capacity)
      ensures ring.Contents() ==
              if stored then old(ring.Contents()) + [Sample(source, sourceRate, outputRate, old(outputFrames))]
              else old(ring.Contents())
      ensures outputFrames == old(outputFrames) + if stored then 1 else 0
    {
      hide Emitted, Sample;
      var fraction := (outputFrames * sourceRate - (index - 1) * outputRate) as real / outputRate as real;
      var sample := if index == 0 then value else previous + (value - previous) * fraction;
      assert sample == Sample(source, sourceRate, outputRate, outputFrames) by {
        StreamedSample(source, sourceRate, outputRate, index, outputFrames);
      }
      stored := ring.Write(sample);
      if stored { outputFrames := outputFrames + 1; }
    }

    // Writes every output sample decided by one more source frame.
    method PushFrame(value: real) returns (room: bool)
      requires Streaming() && sourceRate > 0 && ring.Valid()
      modifies this`inputFrames, this`outputFrames, this`previous, this`source, ring, ring.samples
      ensures ring.Valid()
      ensures room <==> Emitted(old(|source|) + 1, sourceRate, outputRate) - old(outputFrames)
                        <= old(ring.capacity - ring.used)
      ensures old(outputFrames) <= outputFrames
      ensures room ==> Streaming() && source == old(source) + [value]
      ensures room ==> ring.Contents() ==
                       old(ring.Contents()) + Output(source, sourceRate, outputRate, outputFrames)[old(outputFrames)..]
    {
      hide Emitted, Sample, Output;
      var index: int := inputFrames;
      inputFrames := inputFrames + 1;
      source := source + [value];
      ghost var s, o, x, w0 := sourceRate, outputRate, source, outputFrames;
      EmittedMono(index, index + 1, s, o);
      assert Output(x, s, o, w0)[w0..] == [];
      var due := Due(index);
      while due
        invariant inputFrames == index + 1 && source == x && previous == old(previous)
        invariant w0 <= outputFrames <= Emitted(index + 1, s, o)
        invariant due <==> outputFrames < Emitted(index + 1, s, o)
        invariant ring.Valid() && ring.used == old(ring.used) + outputFrames - w0
        invariant ring.Contents() == old(ring.Contents()) + Output(x, s, o, outputFrames)[w0..]
        decreases Emitted(index + 1, s, o) - outputFrames
      {
        var stored := EmitSample(index, value);
        if !stored { return false; }
        OutputAppend(old(ring.Contents()), x, s, o, w0, outputFrames - 1);
        due := Due(index);
      }
      previous := value;
      return true;
    }

    // Feeding a packet. False is the source's "PCM ring full" exception, raised
    // exactly when the packet's output does not fit.
    method Push(packet: seq<real>) returns (room: bool)
      requires Streaming() && sourceRate > 0 && ring.Valid()
      modifies this`inputFrames, this`outputFrames, this`previous, this`source, ring, ring.samples
      ensures ring.Valid()
      ensures room <==> Emitted(old(|source|) + |packet|, sourceRate, outputRate) - old(outputFrames)
                        <= old(ring.capacity - ring.used)
      ensures old(outputFrames) <= outputFrames
      ensures room ==> Streaming() && source == old(source) + packet
      ensures room ==> ring.Contents() ==
                       old(ring.Contents()) + Output(source, sourceRate, outputRate, outputFrames)[old(outputFrames)..]
    {
      hide Sample;
      var i := 0;
      ghost var w0 := outputFrames;
      ghost var s, o := sourceRate, outputRate;
      assert Output(source, s, o, outputFrames)[w0..] == [];
      while i < |packet|
        invariant 0 <= i <= |packet|
        invariant Streaming() && ring.Valid() && ring.used == old(ring.used) + outputFrames - w0
        invariant source == old(source) + packet[..i]
        invariant w0 <= outputFrames
        invariant ring.Contents() == old(ring.Contents()) + Output(source, s, o, outputFrames)[w0..]
      {
        ghost var was, mid := source, outputFrames;
        EmittedMono(|source| + 1, old(|source|) + |packet|, s, o);
        EmittedMono(|source|, |source| + 1, s, o);
        var ok := PushFrame(packet[i]);
        if !ok { return false; }
        OutputStable(was, [packet[i]], s, o, mid);
        assert Output(source, s, o, outputFrames)[w0..]
            == Output(source, s, o, mid)[w0..] + Output(source, s, o, outputFrames)[mid..];
        assert packet[..i + 1] == packet[..i] + [packet[i]];
        i := i + 1;
      }
      assert packet[..i] == packet;
      assert outputFrames == if |source| > 0 then Emitted(|source|, s, o) else 0;
      return true;
    }

    // The tail after the last source frame.
    method Finish() returns (room: bool)
      requires Streaming() && |source| > 0 && ring.Valid()
      modifies this`outputFrames, ring, ring.samples
      ensures ring.Valid() && Valid()
      ensures room <==> Target(|source|, sourceRate, outputRate) - old(outputFrames)
                        <= old(ring.capacity - ring.used)
      ensures room ==> old(outputFrames) <= outputFrames == Target(|source|, sourceRate, outputRate)
      ensures room ==> ring.Contents() ==
                       old(ring.Contents()) + Batch(source, sourceRate, outputRate)[old(outputFrames)..]
    {
      hide Emitted, Target, Sample, Output, Slot;
      ghost var s, o, w0 := sourceRate, outputRate, outputFrames;
      EmittedWithinTarget(|source|, s, o);
      assert Output(source, s, o, w0)[w0..] == [];
      var target := TargetFrames(inputFrames);
      while outputFrames < target
        invariant Valid() && ring.Valid() && w0 <= outputFrames <= target
        invariant ring.used == old(ring.used) + outputFrames - w0
        invariant ring.Contents() == old(ring.Contents()) + Output(source, s, o, outputFrames)[w0..]
      {
        var stored := ring.Write(previous);
        if !stored { return false; }
        HeldSample(source, s, o, outputFrames);
        OutputAppend(old(ring.Contents()), source, s, o, w0, outputFrames);
        outputFrames := outputFrames + 1;
      }
      return true;
    }
  }
}
