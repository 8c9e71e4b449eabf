/**
  An abstract second-order filter section (a "biquad").

  The coefficient formulas and the difference equation are not part of this
  model: a section is the record of the last design call it received plus its
  delay line, and one sample step is a function `StepFn` that the caller
  supplies. Everything the cascade and the filtering stage do with sections
  (copying, redesigning, running them in series) is stated over these values.
*/
module Biquad {
  import opened Wrappers

  /** The filter shapes a section can be designed as. */
  datatype Shape = LowPass | HighPass | BandPass | BandStop | PeakNotch | Allpass | LowShelf | HighShelf

  /**
    The last design call a section received. A design call that does not pass
    a Q or a gain records `None` for it; a new section is `PassThrough`.
  */
  datatype Design =
    | PassThrough
    | Designed(shape: Shape, sampleRate: real, frequency: real, q: Option<real>, gain: Option<real>)

  /** The two previous inputs and the two previous outputs of a section. */
  datatype DelayLine = DelayLine(x1: real, x2: real, y1: real, y2: real)

  const Silent := DelayLine(0.0, 0.0, 0.0, 0.0)

  datatype Section = Section(design: Design, delay: DelayLine)

  /** A freshly constructed section: pass-through design, silent delay line. */
  const NewSection := Section(PassThrough, Silent)

  /** One step of the difference equation: output sample and the next delay line. */
  type StepFn = (Design, DelayLine, real) -> (real, DelayLine)

  datatype Stepped = Stepped(section: Section, sample: real)

  datatype Processed = Processed(section: Section, samples: seq<real>)

  /** One sample through one section. Processing never changes the design. */
  function ProcessSingleSample(step: StepFn, s: Section, x: real): (r: Stepped)
    ensures r.section.design == s.design
  {
    var t := step(s.design, s.delay, x);
    Stepped(Section(s.design, t.1), t.0)
  }

  /**
    A block through one section: the samples are stepped one after another,
    first to last, each step starting from the delay line the previous one left.
  */
  function RunBlock(step: StepFn, s: Section, xs: seq<real>): (r: Processed)
    ensures |r.samples| == |xs|
    ensures r.section.design == s.design
    decreases |xs|
  {
    if xs == [] then Processed(s, [])
    else
      var p := RunBlock(step, s, xs[..|xs| - 1]);
      var t := ProcessSingleSample(step, p.section, xs[|xs| - 1]);
      Processed(t.section, p.samples + [t.sample])
  }

  /** A block of one sample is exactly one single-sample step. */
  lemma RunBlockSingle(step: StepFn, s: Section, x: real)
    ensures RunBlock(step, s, [x]) ==
            Processed(ProcessSingleSample(step, s, x).section, [ProcessSingleSample(step, s, x).sample])
  {
    assert [x][..0] == [];
  }

  /**
    Running a block in two pieces, the second from the delay line the first
    left, is the same as running it whole.
  */
  lemma {:induction false} RunBlockSplit(step: StepFn, s: Section, xs: seq<real>, ys: seq<real>)
    ensures var p := RunBlock(step, s, xs);
            var q := RunBlock(step, p.section, ys);
            RunBlock(step, s, xs + ys) == Processed(q.section, p.samples + q.samples)
    decreases |ys|
  {
    if ys == [] {
      assert xs + ys == xs;
    } else {
      var ys' := ys[..|ys| - 1];
      assert (xs + ys)[..|xs + ys| - 1] == xs + ys';
      assert (xs + ys)[|xs + ys| - 1] == ys[|ys| - 1];
      RunBlockSplit(step, s, xs, ys');
    }
  }

  /** Causality: the first k outputs depend only on the first k inputs. */
  lemma RunBlockPrefix(step: StepFn, s: Section, xs: seq<real>, k: nat)
    requires k <= |xs|
    ensures RunBlock(step, s, xs).samples[..k] == RunBlock(step, s, xs[..k]).samples
  {
    assert xs == xs[..k] + xs[k..];
    RunBlockSplit(step, s, xs[..k], xs[k..]);
  }

  /** Unfolding RunBlock at a prefix one sample longer. */
  lemma RunBlockStep(step: StepFn, s: Section, xs: seq<real>, j: nat)
    requires j < |xs|
    ensures var p := RunBlock(step, s, xs[..j]);
            var t := ProcessSingleSample(step, p.section, xs[j]);
            RunBlock(step, s, xs[..j + 1]) == Processed(t.section, p.samples + [t.sample])
  {
    assert xs[..j + 1][..j] == xs[..j];
  }

  /**
    One iteration of the in-place block loop, over a buffer laid out as
    pre + out + xs[j..] + post where out is the output of xs[..j]: the output
    of sample j overwrites it, and the layout moves on by one sample.
  */
  lemma ProcessNext(step: StepFn, s: Section, pre: seq<real>, xs: seq<real>, post: seq<real>, j: nat,
                    out: seq<real>, cur: Section)
    requires j < |xs| && |out| == j
    requires RunBlock(step, s, xs[..j]) == Processed(cur, out)
    ensures (pre + out + xs[j..] + post)[|pre| + j] == xs[j]
    ensures var t := ProcessSingleSample(step, cur, xs[j]);
            (pre + out + xs[j..] + post)[|pre| + j := t.sample] == pre + (out + [t.sample]) + xs[j + 1..] + post &&
            RunBlock(step, s, xs[..j + 1]) == Processed(t.section, out + [t.sample])
  {
    var t := ProcessSingleSample(step, cur, xs[j]);
    RunBlockStep(step, s, xs, j);
    var b := pre + out + xs[j..] + post;
    var c := pre + (out + [t.sample]) + xs[j + 1..] + post;
    assert |b[|pre| + j := t.sample]| == |c|;
    forall k | 0 <= k < |c| ensures b[|pre| + j := t.sample][k] == c[k] {
      if k < |pre| + j {
      } else if k == |pre| + j {
      } else if k < |pre| + |xs| {
        assert c[k] == xs[j + 1..][k - |pre| - j - 1];
      } else {
      }
    }
  }

  /**
    The section's in-place block processing: `count` samples of `a`, from
    `offset` on, are replaced by the section's output, and the section's new
    state is returned.
  */
  method ProcessSamples(step: StepFn, s: Section, a: array<real>, offset: nat, count: nat) returns (s': Section)
    requires offset + count <= a.Length
    modifies a
    ensures var r := RunBlock(step, s, old(a[offset..offset + count]));
            s' == r.section &&
            a[..] == old(a[..offset]) + r.samples + old(a[offset + count..])
  {
    ghost var pre, xs, post := a[..offset], a[offset..offset + count], a[offset + count..];
    assert a[..] == pre + xs + post;
    ghost var out: seq<real> := [];
    s' := s;
    var j := 0;
    while j < count
      invariant 0 <= j <= count && |out| == j
      invariant a[..] == pre + out + xs[j..] + post
      invariant RunBlock(step, s, xs[..j]) == Processed(s', out)
    {
      ProcessNext(step, s, pre, xs, post, j, out, s');
      var t := ProcessSingleSample(step, s', a[offset + j]);
      a[offset + j] := t.sample;
      out := out + [t.sample];
      s' := t.section;
      j := j + 1;
    }
    assert xs[..count] == xs;
    assert xs[count..] == [];
    assert pre + out + [] + post == pre + out + post;
  }
}
