/** The two resamplers on one curve that holds a value with constant interpolation
    and then steps: key 0 at time 0 with constant interpolation, key 1 at time 10, and
    one frame of 10 ticks. The value is 1 up to the second key and 2 from it. */
module ResamplerComparison {
  import opened Wrappers
  import opened Fbx
  import opened Sampling
  import XenkoResampler
  import ParadoxResampler

  function StepValue(t: int): real {
    if t < 10 then 1.0 else 2.0
  }

  const StepCurve := AnimCurve([CurveKey(0, Constant), CurveKey(10, Linear)], StepValue)

  /** The Paradox resampler loses the step: it starts on key 0 with its constant flag
      clear, steps onto key 1 at the first sample, and never marks a discontinuity, so
      the keyframes are a plain ramp from 1 to 2. */
  lemma ParadoxLosesConstantStep()
    ensures ParadoxResampler.Resample([Some(StepCurve)], 10) == Some([KeyFrame(0, [1.0]), KeyFrame(10, [2.0])])
  {
    var curves := [Some(StepCurve)];
    assert SpanOf(curves) == Span(0, 10) by {
      assert curves[..0] == [];
    }
    assert SampleTimes(0, 10, 10) == [0, 10];
    var cs := ParadoxResampler.Unwrap(curves);
    assert cs == [StepCurve];
    ParadoxResampler.LiftUnwrap(curves);
    var s0 := ParadoxResampler.GroupStep(cs, ParadoxResampler.InitialStates(1), Zeros(1), 0);
    assert ParadoxResampler.AdvanceKey(StepCurve.keys, 0, false, false, 0) == Advance(1, false, false);
    assert s0 == Step(0, [ChannelState(1, false)], false, [1.0], [1.0]);
    var s1 := ParadoxResampler.GroupStep(cs, s0.states, s0.after, 10);
    assert ParadoxResampler.AdvanceKey(StepCurve.keys, 1, false, false, 10) == Advance(1, false, false);
    assert s1 == Step(10, [ChannelState(1, false)], false, [2.0], [2.0]);
    assert ParadoxResampler.Trace(cs, [0, 10], ParadoxResampler.InitialStates(1), Zeros(1)) == [s0, s1];
    assert ParadoxResampler.ResampleTimes(cs, 10) == [0, 10];
    assert ParadoxResampler.ResampleTrace(cs, 10) == [s0, s1];
    assert Emit([s0, s1]) == Block(s0) + Emit([s1]);
    assert Emit([s1]) == Block(s1);
    assert ParadoxResampler.AllPresent(curves);
    assert Emit([s0, s1]) == [KeyFrame(0, [1.0]), KeyFrame(10, [2.0])];
  }

  /** The Xenko resampler keeps it: at the second sample the channel leaves the
      constant key 0, so the held 1 is written twice and the new 2 twice, all at time
      10, and the curve jumps there. */
  lemma XenkoKeepsConstantStep()
    ensures XenkoResampler.Resample([Some(StepCurve)], 10)
         == Some([KeyFrame(0, [1.0]), KeyFrame(10, [1.0]), KeyFrame(10, [1.0]), KeyFrame(10, [2.0]), KeyFrame(10, [2.0])])
  {
    var curves := [Some(StepCurve)];
    assert SpanOf(curves) == Span(0, 10) by {
      assert curves[..0] == [];
    }
    assert SampleTimes(0, 10, 10) == [0, 10];
    var s0 := XenkoResampler.GroupStep(curves, XenkoResampler.InitialStates(1), Zeros(1), 0);
    assert XenkoResampler.AdvanceKey(StepCurve.keys, -1, false, false, 0) == Advance(0, true, false);
    assert s0 == Step(0, [ChannelState(0, true)], false, [1.0], [1.0]);
    var s1 := XenkoResampler.GroupStep(curves, s0.states, s0.after, 10);
    assert XenkoResampler.AdvanceKey(StepCurve.keys, 0, true, false, 10) == Advance(1, false, true);
    assert s1 == Step(10, [ChannelState(1, false)], true, [1.0], [2.0]);
    assert XenkoResampler.Trace(curves, [0, 10], XenkoResampler.InitialStates(1), Zeros(1)) == [s0, s1];
    assert XenkoResampler.ResampleTrace(curves, 10) == [s0, s1];
    assert Emit([s0, s1]) == Block(s0) + Emit([s1]);
    assert Emit([s1]) == Block(s1);
    assert Emit([s0, s1]) == [KeyFrame(0, [1.0]), KeyFrame(10, [1.0]), KeyFrame(10, [1.0]), KeyFrame(10, [2.0]), KeyFrame(10, [2.0])];
  }
}
