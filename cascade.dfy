/**
  A cascade of biquad sections run in series (`CascadedBiquadFilter`).

  The cascade owns an ordered list of sections. `SetOrder` grows the list by
  appending copies of the last section (design and live delay line) and
  shrinks it by removing sections from the tail. Processing runs the sections
  in list order. Every design call is skipped when its frequency equals the
  remembered `currentFrequency`, whatever the shape or Q.
*/
module Cascade {
  import opened Wrappers
  import opened Biquad

  /** All sections carry the same design. */
  ghost predicate SameDesign(secs: seq<Section>)
  {
    forall i, j :: 0 <= i < |secs| && 0 <= j < |secs| ==> secs[i].design == secs[j].design
  }

  /**
    The section list after `setOrder(n)`: shrinking keeps the first n sections
    (none when n <= 0); growing appends copies of the last section. Growing an
    empty list is excluded: `CascadedBiquadFilter::setOrder` would copy from index -1.
  */
  function Resized(secs: seq<Section>, n: int): (r: seq<Section>)
    requires n <= |secs| || |secs| >= 1
    ensures |r| == if n >= 1 then n else 0
    ensures forall i :: 0 <= i < |r| && i < |secs| ==> r[i] == secs[i]
    ensures forall i :: |secs| <= i < |r| ==> r[i] == secs[|secs| - 1]
  {
    if n <= 0 then []
    else if n <= |secs| then secs[..n]
    else secs + seq(n - |secs|, _ => secs[|secs| - 1])
  }

  /** Resizing to the current length changes nothing. */
  lemma ResizedSameOrder(secs: seq<Section>)
    ensures Resized(secs, |secs|) == secs
  {
  }

  /** Growing copies designs, so a cascade whose sections agree keeps agreeing. */
  lemma ResizedKeepsSameDesign(secs: seq<Section>, n: int)
    requires n <= |secs| || |secs| >= 1
    requires SameDesign(secs)
    ensures SameDesign(Resized(secs, n))
  {
    var r := Resized(secs, n);
    forall i, j | 0 <= i < |r| && 0 <= j < |r| ensures r[i].design == r[j].design {
      var i' := if i < |secs| then i else |secs| - 1;
      var j' := if j < |secs| then j else |secs| - 1;
      assert r[i] == secs[i'] && r[j] == secs[j'];
    }
  }

  /** Growing and then shrinking back to the old order restores the old list. */
  lemma GrowThenShrink(secs: seq<Section>, m: int)
    requires |secs| >= 1 && m >= |secs|
    ensures Resized(Resized(secs, m), |secs|) == secs
  {
    var g := Resized(secs, m);
    assert g[..|secs|] == secs;
  }

  /** Two resizes in a row, the second no larger, are one resize. */
  lemma ResizeTwice(secs: seq<Section>, m: int, n: int)
    requires m <= |secs| || |secs| >= 1
    requires n <= m
    ensures Resized(Resized(secs, m), n) == Resized(secs, n)
  {
    if n >= 1 {
      var g := Resized(secs, m);
      var a := Resized(g, n);
      var b := Resized(secs, n);
      assert |a| == |b|;
      forall i | 0 <= i < |a| ensures a[i] == b[i] {
        assert a[i] == g[i];
      }
    }
  }

  /** Every section gets design d and keeps its delay line. */
  function Redesigned(secs: seq<Section>, d: Design): (r: seq<Section>)
    ensures |r| == |secs|
    ensures SameDesign(r)
    ensures forall i :: 0 <= i < |r| ==> r[i].design == d && r[i].delay == secs[i].delay
  {
    seq(|secs|, i requires 0 <= i < |secs| => Section(d, secs[i].delay))
  }

  /** Redesigning twice with the same parameters is redesigning once. */
  lemma RedesignIdempotent(secs: seq<Section>, d: Design)
    ensures Redesigned(Redesigned(secs, d), d) == Redesigned(secs, d)
  {
  }

  datatype SampleResult = SampleResult(sections: seq<Section>, sample: real)

  datatype BlockResult = BlockResult(sections: seq<Section>, samples: seq<real>)

  /** One sample folded through the sections in order, each section's output the next one's input. */
  function CascadeSample(step: StepFn, secs: seq<Section>, x: real): (r: SampleResult)
    ensures |r.sections| == |secs|
    ensures forall i :: 0 <= i < |secs| ==> r.sections[i].design == secs[i].design
    decreases |secs|
  {
    if secs == [] then SampleResult([], x)
    else
      var p := CascadeSample(step, secs[..|secs| - 1], x);
      var t := ProcessSingleSample(step, secs[|secs| - 1], p.sample);
      SampleResult(p.sections + [t.section], t.sample)
  }

  /** A whole block through each section in turn, section i's output block section i+1's input. */
  function CascadeBlock(step: StepFn, secs: seq<Section>, xs: seq<real>): (r: BlockResult)
    ensures |r.sections| == |secs|
    ensures |r.samples| == |xs|
    ensures forall i :: 0 <= i < |secs| ==> r.sections[i].design == secs[i].design
    decreases |secs|
  {
    if secs == [] then BlockResult([], xs)
    else
      var p := CascadeBlock(step, secs[..|secs| - 1], xs);
      var q := RunBlock(step, secs[|secs| - 1], p.samples);
      BlockResult(p.sections + [q.section], q.samples)
  }

  /**
    Connecting two cascades in series is the cascade of their concatenation:
    the first block's output is the second's input.
  */
  lemma {:induction false} CascadeSeries(step: StepFn, a: seq<Section>, b: seq<Section>, xs: seq<real>)
    ensures var p := CascadeBlock(step, a, xs);
            var q := CascadeBlock(step, b, p.samples);
            CascadeBlock(step, a + b, xs) == BlockResult(p.sections + q.sections, q.samples)
    decreases |b|
  {
    if b == [] {
      assert a + b == a;
    } else {
      var b' := b[..|b| - 1];
      assert (a + b)[..|a + b| - 1] == a + b';
      assert (a + b)[|a + b| - 1] == b[|b| - 1];
      CascadeSeries(step, a, b', xs);
      var p := CascadeBlock(step, a, xs);
      var q' := CascadeBlock(step, b', p.samples);
      assert p.sections + q'.sections + [RunBlock(step, b[|b| - 1], q'.samples).section]
          == p.sections + (q'.sections + [RunBlock(step, b[|b| - 1], q'.samples).section]);
    }
  }

  /**
    Processing a one-sample block applies the same transformation as
    processing that sample on its own.
  */
  lemma {:induction false} CascadeBlockOfOneSample(step: StepFn, secs: seq<Section>, x: real)
    ensures var r := CascadeSample(step, secs, x);
            CascadeBlock(step, secs, [x]) == BlockResult(r.sections, [r.sample])
    decreases |secs|
  {
    if secs != [] {
      CascadeBlockOfOneSample(step, secs[..|secs| - 1], x);
      var p := CascadeSample(step, secs[..|secs| - 1], x);
      RunBlockSingle(step, secs[|secs| - 1], p.sample);
    }
  }

  /** Extending a cascade by one section runs that section on the cascade's output. */
  lemma CascadeBlockStep(step: StepFn, secs: seq<Section>, i: nat, xs: seq<real>)
    requires i < |secs|
    ensures var p := CascadeBlock(step, secs[..i], xs);
            var q := RunBlock(step, secs[i], p.samples);
            CascadeBlock(step, secs[..i + 1], xs) == BlockResult(p.sections + [q.section], q.samples)
  {
    assert secs[..i + 1][..i] == secs[..i];
  }

  /** Extending a cascade by one section steps that section on the cascade's output sample. */
  lemma CascadeSampleStep(step: StepFn, secs: seq<Section>, i: nat, x: real)
    requires i < |secs|
    ensures var p := CascadeSample(step, secs[..i], x);
            var t := ProcessSingleSample(step, secs[i], p.sample);
            CascadeSample(step, secs[..i + 1], x) == SampleResult(p.sections + [t.section], t.sample)
  {
    assert secs[..i + 1][..i] == secs[..i];
  }

  /** The chain of three sections, as the filtering stage runs each channel. */
  lemma ThreeSectionChain(step: StepFn, s0: Section, s1: Section, s2: Section, xs: seq<real>)
    ensures var p0 := RunBlock(step, s0, xs);
            var p1 := RunBlock(step, s1, p0.samples);
            var p2 := RunBlock(step, s2, p1.samples);
            CascadeBlock(step, [s0, s1, s2], xs) == BlockResult([p0.section, p1.section, p2.section], p2.samples)
  {
    var chain := [s0, s1, s2];
    var p0 := RunBlock(step, s0, xs);
    var p1 := RunBlock(step, s1, p0.samples);
    assert chain[..0] == [];
    CascadeBlockStep(step, chain, 0, xs);
    assert CascadeBlock(step, chain[..1], xs) == BlockResult([p0.section], p0.samples);
    CascadeBlockStep(step, chain, 1, xs);
    assert CascadeBlock(step, chain[..2], xs) == BlockResult([p0.section, p1.section], p1.samples);
    CascadeBlockStep(step, chain, 2, xs);
    assert chain[..3] == chain;
  }

  /** Processing changes no design, so shared designs stay shared. */
  lemma CascadeBlockKeepsSameDesign(step: StepFn, secs: seq<Section>, xs: seq<real>)
    requires SameDesign(secs)
    ensures SameDesign(CascadeBlock(step, secs, xs).sections)
  {
    var r := CascadeBlock(step, secs, xs).sections;
    forall a, b | 0 <= a < |r| && 0 <= b < |r| ensures r[a].design == r[b].design {
      assert r[a].design == secs[a].design && r[b].design == secs[b].design;
    }
  }

  lemma CascadeSampleKeepsSameDesign(step: StepFn, secs: seq<Section>, x: real)
    requires SameDesign(secs)
    ensures SameDesign(CascadeSample(step, secs, x).sections)
  {
    var r := CascadeSample(step, secs, x).sections;
    forall a, b | 0 <= a < |r| && 0 <= b < |r| ensures r[a].design == r[b].design {
      assert r[a].design == secs[a].design && r[b].design == secs[b].design;
    }
  }

  /** A buffer split at the end of its first part. */
  lemma SplitAt(ys: seq<real>, tail: seq<real>)
    ensures (ys + tail)[..0] == [] && (ys + tail)[0..|ys|] == ys && (ys + tail)[|ys|..] == tail
  {
  }

  /** Lists with the same suffix from i agree at i. */
  lemma SameSuffixHead(secs: seq<Section>, orig: seq<Section>, i: nat)
    requires i < |secs| == |orig| && secs[i..] == orig[i..]
    ensures secs[i] == orig[i]
  {
    assert secs[i..][0] == orig[i..][0];
  }

  /** One iteration of the cascade's block loop: section i runs on the output of sections 0..i-1. */
  lemma CascadeBlockAdvance(step: StepFn, orig: seq<Section>, xs: seq<real>, secs: seq<Section>, ys: seq<real>, i: nat)
    requires i < |orig| == |secs|
    requires CascadeBlock(step, orig[..i], xs) == BlockResult(secs[..i], ys)
    requires secs[i..] == orig[i..]
    ensures var q := RunBlock(step, orig[i], ys);
            CascadeBlock(step, orig[..i + 1], xs) == BlockResult(secs[i := q.section][..i + 1], q.samples) &&
            secs[i := q.section][i + 1..] == orig[i + 1..]
  {
    CascadeBlockStep(step, orig, i, xs);
    var q := RunBlock(step, orig[i], ys);
    UpdateAt(secs, i, q.section);
    assert secs[i + 1..] == secs[i..][1..];
  }

  /** Replacing element i of a list extends its prefix by the new element and keeps its suffix. */
  lemma UpdateAt(secs: seq<Section>, i: nat, s: Section)
    requires i < |secs|
    ensures secs[i := s][..i + 1] == secs[..i] + [s]
    ensures secs[i := s][i + 1..] == secs[i + 1..]
  {
  }

  /**
    The loop of the cascade's block processing: section i processes the whole
    block in place, after sections 0..i-1 have.
  */
  method RunSections(step: StepFn, orig: seq<Section>, samples: array<real>, numSamples: nat)
    returns (secs: seq<Section>)
    requires numSamples <= samples.Length
    modifies samples
    ensures var r := CascadeBlock(step, orig, old(samples[..numSamples]));
            secs == r.sections && samples[..] == r.samples + old(samples[numSamples..])
  {
    ghost var xs, tail := samples[..numSamples], samples[numSamples..];
    assert samples[..] == xs + tail;
    secs := orig;
    ghost var ys := xs;
    var i := 0;
    while i < |secs|
      invariant 0 <= i <= |secs| == |orig|
      invariant CascadeBlock(step, orig[..i], xs) == BlockResult(secs[..i], ys)
      invariant secs[i..] == orig[i..]
      invariant |ys| == numSamples && samples[..] == ys + tail
    {
      SameSuffixHead(secs, orig, i);
      SplitAt(ys, tail);
      var s := Biquad.ProcessSamples(step, secs[i], samples, 0, numSamples);
      CascadeBlockAdvance(step, orig, xs, secs, ys, i);
      ys := RunBlock(step, orig[i], ys).samples;
      secs := secs[i := s];
      i := i + 1;
    }
    assert orig[..i] == orig && secs[..i] == secs;
  }

  /** One iteration of the cascade's sample loop: section i steps the output of sections 0..i-1. */
  lemma CascadeSampleAdvance(step: StepFn, orig: seq<Section>, x: real, secs: seq<Section>, y: real, i: nat)
    requires i < |orig| == |secs|
    requires CascadeSample(step, orig[..i], x) == SampleResult(secs[..i], y)
    requires secs[i..] == orig[i..]
    ensures var t := ProcessSingleSample(step, orig[i], y);
            CascadeSample(step, orig[..i + 1], x) == SampleResult(secs[i := t.section][..i + 1], t.sample) &&
            secs[i := t.section][i + 1..] == orig[i + 1..]
  {
    CascadeSampleStep(step, orig, i, x);
    var t := ProcessSingleSample(step, orig[i], y);
    UpdateAt(secs, i, t.section);
    assert secs[i + 1..] == secs[i..][1..];
  }

  /** The loop of the cascade's single-sample processing. */
  method StepSections(step: StepFn, orig: seq<Section>, sample: real) returns (secs: seq<Section>, y: real)
    ensures var r := CascadeSample(step, orig, sample);
            secs == r.sections && y == r.sample
  {
    secs := orig;
    y := sample;
    var i := 0;
    while i < |secs|
      invariant 0 <= i <= |secs| == |orig|
      invariant CascadeSample(step, orig[..i], sample) == SampleResult(secs[..i], y)
      invariant secs[i..] == orig[i..]
    {
      SameSuffixHead(secs, orig, i);
      CascadeSampleAdvance(step, orig, sample, secs, y, i);
      var t := ProcessSingleSample(step, secs[i], y);
      secs := secs[i := t.section];
      y := t.sample;
      i := i + 1;
    }
    assert orig[..i] == orig && secs[..i] == secs;
  }

  class CascadedBiquadFilter {
    var sections: seq<Section>
    var currentOrder: int
    var currentFrequency: real

    /** The order always equals the number of sections, and all sections share one design. */
    ghost predicate Valid()
      reads this
    {
      currentOrder == |sections| && SameDesign(sections)
    }

    constructor ()
      ensures Valid()
      ensures sections == [NewSection] && currentOrder == 1 && currentFrequency == 0.0
    {
      currentFrequency := 0.0;
      sections := [NewSection];
      currentOrder := 1;
    }

    /**
      The order is not clamped: `setOrder` computes a clamp to [1, 10] and
      discards its value.
    */
    method SetOrder(newOrder: int)
      requires Valid()
      requires newOrder <= currentOrder || currentOrder >= 1
      modifies this
      ensures Valid()
      ensures sections == Resized(old(sections), newOrder)
      ensures currentOrder == if newOrder >= 1 then newOrder else 0
      ensures currentFrequency == old(currentFrequency)
    {
      if newOrder != currentOrder {
        ghost var before := sections;
        var oldOrder := currentOrder;
        if newOrder > currentOrder {
          var order := currentOrder;
          while order < newOrder
            invariant oldOrder <= order <= newOrder
            invariant |sections| == order
            invariant sections == before + seq(order - oldOrder, _ => before[oldOrder - 1])
            invariant currentOrder == oldOrder && currentFrequency == old(currentFrequency)
          {
            // copyOutputsFrom and copyCoefficientsFrom of the section before it
            var newFilter := sections[order - 1];
            assert newFilter == before[oldOrder - 1];
            sections := sections + [newFilter];
            order := order + 1;
          }
        } else if newOrder < currentOrder {
          var order := currentOrder;
          while order > newOrder
            invariant newOrder <= order <= oldOrder
            invariant |sections| == if order >= 0 then order else 0
            invariant sections == before[..|sections|]
            invariant currentOrder == oldOrder && currentFrequency == old(currentFrequency)
          {
            if |sections| > 0 {
              sections := sections[..|sections| - 1];
            }
            order := order - 1;
          }
        }
        ResizedKeepsSameDesign(before, newOrder);
        currentOrder := |sections|;
      }
    }

    /** Runs every section over the whole block, in list order, in place. */
    method ProcessSamples(step: StepFn, samples: array<real>, numSamples: nat)
      requires Valid()
      requires numSamples <= samples.Length
      modifies this, samples
      ensures Valid()
      ensures var r := CascadeBlock(step, old(sections), old(samples[..numSamples]));
              sections == r.sections && samples[..] == r.samples + old(samples[numSamples..])
      ensures currentOrder == old(currentOrder) && currentFrequency == old(currentFrequency)
    {
      ghost var xs := samples[..numSamples];
      CascadeBlockKeepsSameDesign(step, sections, xs);
      sections := RunSections(step, sections, samples, numSamples);
    }

    /** One sample through every section, in list order. */
    method ProcessSingleSampleRaw(step: StepFn, sample: real) returns (y: real)
      requires Valid()
      modifies this
      ensures Valid()
      ensures var r := CascadeSample(step, old(sections), sample);
              sections == r.sections && y == r.sample
      ensures currentOrder == old(currentOrder) && currentFrequency == old(currentFrequency)
    {
      CascadeSampleKeepsSameDesign(step, sections, sample);
      sections, y := StepSections(step, sections, sample);
    }

    /**
      The loop every design call shares: unless `frequency` is the remembered
      one, every section gets design `d` and the frequency is remembered.
    */
    method Redesign(frequency: real, d: Design)
      requires Valid()
      modifies this
      ensures Valid()
      ensures old(currentFrequency) == frequency ==> sections == old(sections) && currentFrequency == frequency
      ensures old(currentFrequency) != frequency ==>
                sections == Redesigned(old(sections), d) && currentFrequency == frequency
      ensures currentOrder == old(currentOrder)
    {
      if frequency != currentFrequency {
        var i := 0;
        while i < |sections|
          invariant 0 <= i <= |sections| == |old(sections)|
          invariant sections[..i] == Redesigned(old(sections)[..i], d)
          invariant sections[i..] == old(sections)[i..]
          invariant currentOrder == old(currentOrder) && currentFrequency == old(currentFrequency)
        {
          assert old(sections)[..i + 1][..i] == old(sections)[..i];
          sections := sections[i := Section(d, sections[i].delay)];
          i := i + 1;
        }
        assert old(sections)[..i] == old(sections);
        assert sections == sections[..i];
        currentFrequency := frequency;
      }
    }

    method MakeLowPass(sampleRate: real, frequency: real)
      requires Valid()
      modifies this
      ensures Valid()
      ensures old(currentFrequency) == frequency ==> sections == old(sections) && currentFrequency == frequency
      ensures old(currentFrequency) != frequency ==>
                sections == Redesigned(old(sections), Designed(LowPass, sampleRate, frequency, None, None)) &&
                currentFrequency == frequency
      ensures currentOrder == old(currentOrder)
    {
      Redesign(frequency, Designed(LowPass, sampleRate, frequency, None, None));
    }

    method MakeHighPass(sampleRate: real, frequency: real)
      requires Valid()
      modifies this
      ensures Valid()
      ensures old(currentFrequency) == frequency ==> sections == old(sections) && currentFrequency == frequency
      ensures old(currentFrequency) != frequency ==>
                sections == Redesigned(old(sections), Designed(HighPass, sampleRate, frequency, None, None)) &&
                currentFrequency == frequency
      ensures currentOrder == old(currentOrder)
    {
      Redesign(frequency, Designed(HighPass, sampleRate, frequency, None, None));
    }

    method MakeBandPass(sampleRate: real, frequency: real, q: real)
      requires Valid()
      modifies this
      ensures Valid()
      ensures old(currentFrequency) == frequency ==> sections == old(sections) && currentFrequency == frequency
      ensures old(currentFrequency) != frequency ==>
                sections == Redesigned(old(sections), Designed(BandPass, sampleRate, frequency, Some(q), None)) &&
                currentFrequency == frequency
      ensures currentOrder == old(currentOrder)
    {
      Redesign(frequency, Designed(BandPass, sampleRate, frequency, Some(q), None));
    }

    method MakeBandStop(sampleRate: real, frequency: real, q: real)
      requires Valid()
      modifies this
      ensures Valid()
      ensures old(currentFrequency) == frequency ==> sections == old(sections) && currentFrequency == frequency
      ensures old(currentFrequency) != frequency ==>
                sections == Redesigned(old(sections), Designed(BandStop, sampleRate, frequency, Some(q), None)) &&
                currentFrequency == frequency
      ensures currentOrder == old(currentOrder)
    {
      Redesign(frequency, Designed(BandStop, sampleRate, frequency, Some(q), None));
    }

    method MakePeakNotch(sampleRate: real, centreFrequency: real, q: real, gainFactor: real)
      requires Valid()
      modifies this
      ensures Valid()
      ensures old(currentFrequency) == centreFrequency ==>
                sections == old(sections) && currentFrequency == centreFrequency
      ensures old(currentFrequency) != centreFrequency ==>
                sections == Redesigned(old(sections),
                                       Designed(PeakNotch, sampleRate, centreFrequency, Some(q), Some(gainFactor))) &&
                currentFrequency == centreFrequency
      ensures currentOrder == old(currentOrder)
    {
      Redesign(centreFrequency, Designed(PeakNotch, sampleRate, centreFrequency, Some(q), Some(gainFactor)));
    }

    method MakeAllpass(sampleRate: real, frequency: real, q: real)
      requires Valid()
      modifies this
      ensures Valid()
      ensures old(currentFrequency) == frequency ==> sections == old(sections) && currentFrequency == frequency
      ensures old(currentFrequency) != frequency ==>
                sections == Redesigned(old(sections), Designed(Allpass, sampleRate, frequency, Some(q), None)) &&
                currentFrequency == frequency
      ensures currentOrder == old(currentOrder)
    {
      Redesign(frequency, Designed(Allpass, sampleRate, frequency, Some(q), None));
    }
  }

  /**
    The cached frequency ignores the shape: right after a low-pass design at
    frequency f, a band-stop design at f leaves the low-pass design in place.
  */
  method ShapeChangeAtSameFrequencyIsIgnored(sampleRate: real, f: real, q: real)
    requires f != 0.0
  {
    var c := new CascadedBiquadFilter();
    c.MakeLowPass(sampleRate, f);
    c.MakeBandStop(sampleRate, f, q);
    assert c.sections[0].design == Designed(LowPass, sampleRate, f, None, None);
  }
}
