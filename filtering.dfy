/**
  The three-band filtering stage (`FilteringAudioSource`).

  The stage holds three gains, a sample rate, an enable flag and six biquad
  sections: low, mid and high for the left channel (0) and the right channel
  (1). Rendering pulls a block from the upstream source into the buffer and,
  when filtering is enabled, runs channel 0 through lowL, midL, highL and
  channel 1 through lowR, midR, highR; with no upstream source it clears the
  active region instead.
*/
module Filtering {
  import opened Wrappers
  import opened Biquad
  import Cascade

  const DefaultSampleRate: real := 44100.0

  /** The designs the constructor and `prepareToPlay` give each band. */
  function PlaybackLow(sampleRate: real, gain: real): Design
  {
    Designed(LowShelf, sampleRate, 70.0, Some(1.5), Some(gain))
  }

  function PlaybackMid(sampleRate: real, gain: real): Design
  {
    Designed(BandPass, sampleRate, 1000.0, Some(1.5), Some(gain))
  }

  function PlaybackHigh(sampleRate: real, gain: real): Design
  {
    Designed(HighShelf, sampleRate, 1300.0, Some(1.5), Some(gain))
  }

  /** The designs the gain setters give each band: other frequencies, and Q 1. */
  function GainLow(sampleRate: real, gain: real): Design
  {
    Designed(LowShelf, sampleRate, 500.0, Some(1.0), Some(gain))
  }

  function GainMid(sampleRate: real, gain: real): Design
  {
    Designed(BandPass, sampleRate, 2000.0, Some(1.0), Some(gain))
  }

  function GainHigh(sampleRate: real, gain: real): Design
  {
    Designed(HighShelf, sampleRate, 3500.0, Some(1.0), Some(gain))
  }

  /** `buf` with the `|xs|` samples from `start` on replaced by `xs`. */
  function Splice(buf: seq<real>, start: nat, xs: seq<real>): (r: seq<real>)
    requires start + |xs| <= |buf|
    ensures |r| == |buf|
    ensures r[start..start + |xs|] == xs
  {
    buf[..start] + xs + buf[start + |xs|..]
  }

  /** Splicing twice into the same region keeps only the second block. */
  lemma SpliceTwice(buf: seq<real>, start: nat, xs: seq<real>, ys: seq<real>)
    requires start + |xs| <= |buf| && |ys| == |xs|
    ensures Splice(Splice(buf, start, xs), start, ys) == Splice(buf, start, ys)
  {
    var b := Splice(buf, start, xs);
    assert b[..start] == buf[..start];
    assert b[start + |xs|..] == buf[start + |xs|..];
  }

  /** Splicing in the region's own contents changes nothing. */
  lemma SpliceSame(buf: seq<real>, start: nat, n: nat)
    requires start + n <= |buf|
    ensures Splice(buf, start, buf[start..start + n]) == buf
  {
    assert buf == buf[..start] + buf[start..start + n] + buf[start + n..];
  }

  function Zeros(n: nat): (r: seq<real>)
    ensures |r| == n && forall k :: 0 <= k < n ==> r[k] == 0.0
  {
    seq(n, _ => 0.0)
  }

  /** Writes `xs` into `a` from `start` on. */
  method WriteRegion(a: array<real>, start: nat, xs: seq<real>)
    requires start + |xs| <= a.Length
    modifies a
    ensures a[..] == Splice(old(a[..]), start, xs)
  {
    var j := 0;
    while j < |xs|
      invariant 0 <= j <= |xs|
      invariant forall k :: 0 <= k < a.Length ==> a[k] == if start <= k < start + j then xs[k - start] else old(a[k])
    {
      a[start + j] := xs[j];
      j := j + 1;
    }
    assert a[..] == Splice(old(a[..]), start, xs) by {
      var r := Splice(old(a[..]), start, xs);
      forall k | 0 <= k < a.Length ensures a[..][k] == r[k] {
        if start <= k < start + |xs| {
          assert r[k] == r[start..start + |xs|][k - start];
        }
      }
    }
  }

  /** Distinct channel buffers for a block of `numSamples` samples from `startSample` on. */
  ghost predicate ChannelsFit(channels: seq<array<real>>, startSample: nat, numSamples: nat)
    reads channels
  {
    && (forall c :: 0 <= c < |channels| ==> startSample + numSamples <= channels[c].Length)
    && (forall c, d :: 0 <= c < d < |channels| ==> channels[c] != channels[d])
  }

  /** Writes `blocks[c]` into the active region of every channel c. */
  method WriteChannels(channels: seq<array<real>>, startSample: nat, numSamples: nat, blocks: seq<seq<real>>)
    requires ChannelsFit(channels, startSample, numSamples)
    requires |blocks| == |channels| && forall c :: 0 <= c < |blocks| ==> |blocks[c]| == numSamples
    modifies channels
    ensures forall c :: 0 <= c < |channels| ==>
              channels[c][..] == Splice(old(channels[c][..]), startSample, blocks[c])
  {
    var c := 0;
    while c < |channels|
      invariant 0 <= c <= |channels|
      invariant forall d :: 0 <= d < c ==> channels[d][..] == Splice(old(channels[d][..]), startSample, blocks[d])
      invariant forall d :: c <= d < |channels| ==> channels[d][..] == old(channels[d][..])
    {
      WriteRegion(channels[c], startSample, blocks[c]);
      c := c + 1;
    }
  }

  /**
    One band of a render: `sL` processes the left region, which holds `xsL`,
    and then `sR` the right one, which holds `xsR`, each in place. `bufL` and
    `bufR` are the buffers around the regions.
  */
  method ProcessPair(step: StepFn, sL: Section, sR: Section, aL: array<real>, aR: array<real>, start: nat, n: nat,
                     ghost bufL: seq<real>, ghost bufR: seq<real>, ghost xsL: seq<real>, ghost xsR: seq<real>)
    returns (sL': Section, sR': Section)
    requires aL != aR && start + n <= |bufL| && start + n <= |bufR| && |xsL| == n && |xsR| == n
    requires aL[..] == Splice(bufL, start, xsL) && aR[..] == Splice(bufR, start, xsR)
    modifies aL, aR
    ensures var l := RunBlock(step, sL, xsL);
            sL' == l.section && aL[..] == Splice(bufL, start, l.samples)
    ensures var r := RunBlock(step, sR, xsR);
            sR' == r.section && aR[..] == Splice(bufR, start, r.samples)
  {
    assert aL[start..start + n] == xsL && aR[start..start + n] == xsR;
    sL' := ProcessSamples(step, sL, aL, start, n);
    SpliceTwice(bufL, start, xsL, RunBlock(step, sL, xsL).samples);
    sR' := ProcessSamples(step, sR, aR, start, n);
    SpliceTwice(bufR, start, xsR, RunBlock(step, sR, xsR).samples);
  }

  /** One channel's low, mid and high sections after a block, and the block they produce. */
  datatype ChainResult = ChainResult(low: Section, mid: Section, high: Section, samples: seq<real>)

  /**
    A block through one channel's low, mid and high sections, each on the
    previous one's output. This is `Cascade.CascadeBlock` of the three
    sections (`BandChainIsCascade`), written without recursion so that the
    render contracts stay cheap to verify.
  */
  function BandChain(step: StepFn, low: Section, mid: Section, high: Section, xs: seq<real>): (r: ChainResult)
    ensures |r.samples| == |xs|
    ensures r.low.design == low.design && r.mid.design == mid.design && r.high.design == high.design
  {
    var p0 := RunBlock(step, low, xs);
    var p1 := RunBlock(step, mid, p0.samples);
    var p2 := RunBlock(step, high, p1.samples);
    ChainResult(p0.section, p1.section, p2.section, p2.samples)
  }

  /** A channel's band chain is the cascade of its three sections. */
  lemma BandChainIsCascade(step: StepFn, low: Section, mid: Section, high: Section, xs: seq<real>)
    ensures var c := BandChain(step, low, mid, high, xs);
            Cascade.CascadeBlock(step, [low, mid, high], xs) == Cascade.BlockResult([c.low, c.mid, c.high], c.samples)
  {
    Cascade.ThreeSectionChain(step, low, mid, high, xs);
  }

  /**
    The three bands of a render in the order `getNextAudioBlock` uses: low left, low right,
    mid left, mid right, high left, high right.
  */
  method FilterStereo(step: StepFn, lowL: Section, midL: Section, highL: Section, lowR: Section, midR: Section, highR: Section,
                      aL: array<real>, aR: array<real>, start: nat, n: nat, ghost bufL: seq<real>, ghost bufR: seq<real>)
    returns (lowL': Section, midL': Section, highL': Section, lowR': Section, midR': Section, highR': Section)
    requires aL != aR && start + n <= aL.Length && start + n <= aR.Length
    requires aL[..] == bufL && aR[..] == bufR
    modifies aL, aR
    ensures var l := BandChain(step, lowL, midL, highL, bufL[start..start + n]);
            lowL' == l.low && midL' == l.mid && highL' == l.high && aL[..] == Splice(bufL, start, l.samples)
    ensures var r := BandChain(step, lowR, midR, highR, bufR[start..start + n]);
            lowR' == r.low && midR' == r.mid && highR' == r.high && aR[..] == Splice(bufR, start, r.samples)
  {
    ghost var xsL, xsR := bufL[start..start + n], bufR[start..start + n];
    SpliceSame(bufL, start, n);
    SpliceSame(bufR, start, n);
    ghost var p0L, p0R := RunBlock(step, lowL, xsL), RunBlock(step, lowR, xsR);
    ghost var p1L, p1R := RunBlock(step, midL, p0L.samples), RunBlock(step, midR, p0R.samples);
    lowL', lowR' := ProcessPair(step, lowL, lowR, aL, aR, start, n, bufL, bufR, xsL, xsR);
    midL', midR' := ProcessPair(step, midL, midR, aL, aR, start, n, bufL, bufR, p0L.samples, p0R.samples);
    highL', highR' := ProcessPair(step, highL, highR, aL, aR, start, n, bufL, bufR, p1L.samples, p1R.samples);
  }

  /**
    A render with an upstream source and filtering on, over the six filters
    given as values: the upstream block is written to every channel, then
    channels 0 and 1 are filtered.
  */
  method RenderStereo(step: StepFn, lowL: Section, midL: Section, highL: Section, lowR: Section, midR: Section, highR: Section,
                      channels: seq<array<real>>, startSample: nat, numSamples: nat, upstream: seq<seq<real>>)
    returns (lowL': Section, midL': Section, highL': Section, lowR': Section, midR': Section, highR': Section)
    requires ChannelsFit(channels, startSample, numSamples) && |channels| >= 2
    requires |upstream| == |channels| && forall c :: 0 <= c < |upstream| ==> |upstream[c]| == numSamples
    modifies channels
    ensures var l := BandChain(step, lowL, midL, highL, upstream[0]);
            lowL' == l.low && midL' == l.mid && highL' == l.high &&
            channels[0][..] == Splice(old(channels[0][..]), startSample, l.samples)
    ensures var r := BandChain(step, lowR, midR, highR, upstream[1]);
            lowR' == r.low && midR' == r.mid && highR' == r.high &&
            channels[1][..] == Splice(old(channels[1][..]), startSample, r.samples)
    ensures forall c :: 2 <= c < |channels| ==>
              channels[c][..] == Splice(old(channels[c][..]), startSample, upstream[c])
  {
    ghost var before0, before1 := channels[0][..], channels[1][..];
    WriteChannels(channels, startSample, numSamples, upstream);
    var sampleDataL, sampleDataR := channels[0], channels[1];
    assert sampleDataL[..][startSample..startSample + numSamples] == upstream[0];
    assert sampleDataR[..][startSample..startSample + numSamples] == upstream[1];
    ghost var l := BandChain(step, lowL, midL, highL, upstream[0]);
    ghost var r := BandChain(step, lowR, midR, highR, upstream[1]);
    SpliceTwice(before0, startSample, upstream[0], l.samples);
    SpliceTwice(before1, startSample, upstream[1], r.samples);
    lowL', midL', highL', lowR', midR', highR' :=
      FilterStereo(step, lowL, midL, highL, lowR, midR, highR,
                   sampleDataL, sampleDataR, startSample, numSamples, sampleDataL[..], sampleDataR[..]);
  }

  class FilteringAudioSource {
    /** Whether an upstream source was given (`input != 0`). */
    const hasInput: bool
    var sampleRate: real
    var lowEQGain: real
    var midEQGain: real
    var highEQGain: real
    var filterSource: bool
    var lowEQFilterL: Section
    var lowEQFilterR: Section
    var midEQFilterL: Section
    var midEQFilterR: Section
    var highEQFilterL: Section
    var highEQFilterR: Section

    /** The left and right filter of each band always hold the same design. */
    ghost predicate Valid()
      reads this
    {
      && lowEQFilterL.design == lowEQFilterR.design
      && midEQFilterL.design == midEQFilterR.design
      && highEQFilterL.design == highEQFilterR.design
    }

    constructor (inputPresent: bool, numChannels: int)
      ensures Valid()
      ensures hasInput == inputPresent
      ensures sampleRate == DefaultSampleRate && filterSource
      ensures lowEQGain == 1.0 && midEQGain == 1.0 && highEQGain == 1.0
      ensures lowEQFilterL == lowEQFilterR == Section(PlaybackLow(DefaultSampleRate, 1.0), Silent)
      ensures midEQFilterL == midEQFilterR == Section(PlaybackMid(DefaultSampleRate, 1.0), Silent)
      ensures highEQFilterL == highEQFilterR == Section(PlaybackHigh(DefaultSampleRate, 1.0), Silent)
    {
      hasInput := inputPresent;
      sampleRate := DefaultSampleRate;
      lowEQGain, midEQGain, highEQGain := 1.0, 1.0, 1.0;
      filterSource := true;
      lowEQFilterL := Section(PlaybackLow(DefaultSampleRate, 1.0), Silent);
      lowEQFilterR := Section(PlaybackLow(DefaultSampleRate, 1.0), Silent);
      midEQFilterL := Section(PlaybackMid(DefaultSampleRate, 1.0), Silent);
      midEQFilterR := Section(PlaybackMid(DefaultSampleRate, 1.0), Silent);
      highEQFilterL := Section(PlaybackHigh(DefaultSampleRate, 1.0), Silent);
      highEQFilterR := Section(PlaybackHigh(DefaultSampleRate, 1.0), Silent);
    }

    /** Stores the gain and redesigns both low filters at 500 Hz, Q 1; nothing else changes. */
    method SetLowEQGain(newLowEQGain: real)
      requires Valid()
      modifies this
      ensures Valid()
      ensures lowEQGain == newLowEQGain
      ensures lowEQFilterL == old(lowEQFilterL).(design := GainLow(sampleRate, newLowEQGain))
      ensures lowEQFilterR == old(lowEQFilterR).(design := GainLow(sampleRate, newLowEQGain))
      ensures unchanged(this`midEQFilterL, this`midEQFilterR, this`highEQFilterL, this`highEQFilterR)
      ensures unchanged(this`sampleRate, this`midEQGain, this`highEQGain, this`filterSource)
    {
      lowEQGain := newLowEQGain;
      lowEQFilterL := lowEQFilterL.(design := GainLow(sampleRate, lowEQGain));
      lowEQFilterR := lowEQFilterR.(design := GainLow(sampleRate, lowEQGain));
    }

    /** Stores the gain and redesigns both mid filters at 2000 Hz, Q 1; nothing else changes. */
    method SetMidEQGain(newMidEQGain: real)
      requires Valid()
      modifies this
      ensures Valid()
      ensures midEQGain == newMidEQGain
      ensures midEQFilterL == old(midEQFilterL).(design := GainMid(sampleRate, newMidEQGain))
      ensures midEQFilterR == old(midEQFilterR).(design := GainMid(sampleRate, newMidEQGain))
      ensures unchanged(this`lowEQFilterL, this`lowEQFilterR, this`highEQFilterL, this`highEQFilterR)
      ensures unchanged(this`sampleRate, this`lowEQGain, this`highEQGain, this`filterSource)
    {
      midEQGain := newMidEQGain;
      midEQFilterL := midEQFilterL.(design := GainMid(sampleRate, midEQGain));
      midEQFilterR := midEQFilterR.(design := GainMid(sampleRate, midEQGain));
    }

    /** Stores the gain and redesigns both high filters at 3500 Hz, Q 1; nothing else changes. */
    method SetHighEQGain(newHighEQGain: real)
      requires Valid()
      modifies this
      ensures Valid()
      ensures highEQGain == newHighEQGain
      ensures highEQFilterL == old(highEQFilterL).(design := GainHigh(sampleRate, newHighEQGain))
      ensures highEQFilterR == old(highEQFilterR).(design := GainHigh(sampleRate, newHighEQGain))
      ensures unchanged(this`lowEQFilterL, this`lowEQFilterR, this`midEQFilterL, this`midEQFilterR)
      ensures unchanged(this`sampleRate, this`lowEQGain, this`midEQGain, this`filterSource)
    {
      highEQGain := newHighEQGain;
      highEQFilterL := highEQFilterL.(design := GainHigh(sampleRate, highEQGain));
      highEQFilterR := highEQFilterR.(design := GainHigh(sampleRate, highEQGain));
    }

    /** Switches filtering on or off; gains and filters are untouched. */
    method SetFilterSource(shouldFilter: bool)
      requires Valid()
      modifies this
      ensures Valid()
      ensures filterSource == shouldFilter
      ensures unchanged(this`lowEQFilterL, this`lowEQFilterR, this`midEQFilterL, this`midEQFilterR,
                        this`highEQFilterL, this`highEQFilterR)
      ensures unchanged(this`sampleRate, this`lowEQGain, this`midEQGain, this`highEQGain)
    {
      filterSource := shouldFilter;
    }

    /**
      Stores the sample rate and redesigns all six filters with the
      construction frequencies and Q and the current gains, which undoes the
      frequencies the gain setters chose. The call forwarded to the upstream
      source is not modelled.
    */
    method PrepareToPlay(samplesPerBlockExpected: int, newSampleRate: real)
      requires Valid()
      modifies this
      ensures Valid()
      ensures sampleRate == newSampleRate
      ensures lowEQFilterL == old(lowEQFilterL).(design := PlaybackLow(newSampleRate, lowEQGain))
      ensures lowEQFilterR == old(lowEQFilterR).(design := PlaybackLow(newSampleRate, lowEQGain))
      ensures midEQFilterL == old(midEQFilterL).(design := PlaybackMid(newSampleRate, midEQGain))
      ensures midEQFilterR == old(midEQFilterR).(design := PlaybackMid(newSampleRate, midEQGain))
      ensures highEQFilterL == old(highEQFilterL).(design := PlaybackHigh(newSampleRate, highEQGain))
      ensures highEQFilterR == old(highEQFilterR).(design := PlaybackHigh(newSampleRate, highEQGain))
      ensures unchanged(this`lowEQGain, this`midEQGain, this`highEQGain, this`filterSource)
    {
      sampleRate := newSampleRate;
      lowEQFilterL := lowEQFilterL.(design := PlaybackLow(sampleRate, lowEQGain));
      lowEQFilterR := lowEQFilterR.(design := PlaybackLow(sampleRate, lowEQGain));
      midEQFilterL := midEQFilterL.(design := PlaybackMid(sampleRate, midEQGain));
      midEQFilterR := midEQFilterR.(design := PlaybackMid(sampleRate, midEQGain));
      highEQFilterL := highEQFilterL.(design := PlaybackHigh(sampleRate, highEQGain));
      highEQFilterR := highEQFilterR.(design := PlaybackHigh(sampleRate, highEQGain));
    }

    /** Only forwards to the upstream source, so the stage's own state is untouched. */
    method ReleaseResources()
      requires Valid()
      ensures Valid()
      ensures unchanged(this)
    {
    }

    /**
      Renders one block into `channels` from `startSample` on. `upstream[c]`
      is the block the upstream source writes into channel c.
    */
    method GetNextAudioBlock(step: StepFn, channels: seq<array<real>>, startSample: nat, numSamples: nat,
                             upstream: seq<seq<real>>)
      requires Valid()
      requires ChannelsFit(channels, startSample, numSamples)
      requires |upstream| == |channels| && forall c :: 0 <= c < |upstream| ==> |upstream[c]| == numSamples
      requires hasInput && filterSource ==> |channels| >= 2
      modifies this, channels
      ensures Valid()
      ensures unchanged(this`sampleRate, this`lowEQGain, this`midEQGain, this`highEQGain, this`filterSource)
      ensures !hasInput ==>
                (forall c :: 0 <= c < |channels| ==>
                   channels[c][..] == Splice(old(channels[c][..]), startSample, Zeros(numSamples))) &&
                unchanged(this)
      ensures hasInput && !filterSource ==>
                (forall c :: 0 <= c < |channels| ==>
                   channels[c][..] == Splice(old(channels[c][..]), startSample, upstream[c])) &&
                unchanged(this)
      ensures hasInput && filterSource ==>
                var l := BandChain(step, old(lowEQFilterL), old(midEQFilterL), old(highEQFilterL), upstream[0]);
                var r := BandChain(step, old(lowEQFilterR), old(midEQFilterR), old(highEQFilterR), upstream[1]);
                && channels[0][..] == Splice(old(channels[0][..]), startSample, l.samples)
                && channels[1][..] == Splice(old(channels[1][..]), startSample, r.samples)
                && lowEQFilterL == l.low && midEQFilterL == l.mid && highEQFilterL == l.high
                && lowEQFilterR == r.low && midEQFilterR == r.mid && highEQFilterR == r.high
                && (forall c :: 2 <= c < |channels| ==>
                      channels[c][..] == Splice(old(channels[c][..]), startSample, upstream[c]))
    {
      if hasInput {
        if filterSource {
          RenderFiltered(step, channels, startSample, numSamples, upstream);
        } else {
          WriteChannels(channels, startSample, numSamples, upstream);
        }
      } else {
        // clearActiveBufferRegion
        WriteChannels(channels, startSample, numSamples, seq(|channels|, _ => Zeros(numSamples)));
      }
    }

    /**
      A render with an upstream source and filtering on: the upstream block is
      written to every channel, then channels 0 and 1 are filtered.
    */
    method RenderFiltered(step: StepFn, channels: seq<array<real>>, startSample: nat, numSamples: nat,
                          upstream: seq<seq<real>>)
      requires Valid()
      requires ChannelsFit(channels, startSample, numSamples) && |channels| >= 2
      requires |upstream| == |channels| && forall c :: 0 <= c < |upstream| ==> |upstream[c]| == numSamples
      modifies this, channels
      ensures Valid()
      ensures unchanged(this`sampleRate, this`lowEQGain, this`midEQGain, this`highEQGain, this`filterSource)
      ensures var l := BandChain(step, old(lowEQFilterL), old(midEQFilterL), old(highEQFilterL), upstream[0]);
              var r := BandChain(step, old(lowEQFilterR), old(midEQFilterR), old(highEQFilterR), upstream[1]);
              && channels[0][..] == Splice(old(channels[0][..]), startSample, l.samples)
              && channels[1][..] == Splice(old(channels[1][..]), startSample, r.samples)
              && lowEQFilterL == l.low && midEQFilterL == l.mid && highEQFilterL == l.high
              && lowEQFilterR == r.low && midEQFilterR == r.mid && highEQFilterR == r.high
              && (forall c :: 2 <= c < |channels| ==>
                    channels[c][..] == Splice(old(channels[c][..]), startSample, upstream[c]))
    {
      var lowL, midL, highL, lowR, midR, highR :=
        RenderStereo(step, lowEQFilterL, midEQFilterL, highEQFilterL, lowEQFilterR, midEQFilterR, highEQFilterR,
                     channels, startSample, numSamples, upstream);
      lowEQFilterL, midEQFilterL, highEQFilterL := lowL, midL, highL;
      lowEQFilterR, midEQFilterR, highEQFilterR := lowR, midR, highR;
    }
  }

  /**
    `prepareToPlay` redesigns every band at its construction frequency, so a
    gain set before it loses the frequency the gain setter chose.
  */
  method PrepareToPlayUndoesGainSetterFrequency(gain: real, newSampleRate: real)
  {
    var f := new FilteringAudioSource(true, 2);
    f.SetLowEQGain(gain);
    assert f.lowEQFilterL.design.frequency == 500.0;
    f.PrepareToPlay(512, newSampleRate);
    assert f.lowEQFilterL.design == Designed(LowShelf, newSampleRate, 70.0, Some(1.5), Some(gain));
  }
}
