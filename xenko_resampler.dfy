/** The Xenko importer's resampler (ProcessAnimationCurveFloatsHelper): a group of up
    to four component curves is sampled once per frame over its combined time span.
    A null curve contributes 0. A channel leaving a key with constant interpolation
    makes the step a discontinuity: the held values are written twice and the new
    values twice, all at the step's time, so no implicit tangent blurs the jump. */
module XenkoResampler {
  import opened Wrappers
  import opened Fbx
  import opened Sampling

  /** The key-advance loop of one channel: while the next key is at or before the
      sample time, step onto it; wasConstant takes the constant flag of the key being
      left, and isConstant that of the key reached. */
  function AdvanceKey(keys: seq<CurveKey>, index: int, isConstant: bool, wasConstant: bool, time: int): (a: Advance)
    ensures index <= a.keyIndex
    ensures index < |keys| ==> a.keyIndex < |keys|
    decreases |keys| - index
  {
    if -1 <= index && index + 1 < |keys| && keys[index + 1].time <= time then
      AdvanceKey(keys, index + 1, keys[index + 1].interpolation == Constant, isConstant, time)
    else
      Advance(index, isConstant, wasConstant)
  }

  /** A channel state is consistent with its curve: the index is in range (-1 before
      the first key) and the constant flag is that of the current key. */
  predicate Tracks(keys: seq<CurveKey>, s: ChannelState) {
    && -1 <= s.keyIndex < |keys|
    && s.isConstant == (s.keyIndex >= 0 && keys[s.keyIndex].interpolation == Constant)
  }

  predicate ValidStates(curves: seq<Option<AnimCurve>>, states: seq<ChannelState>) {
    && |states| == |curves|
    && forall i :: 0 <= i < |curves| && curves[i].Some? ==> -1 <= states[i].keyIndex < |curves[i].value.keys|
  }

  predicate TracksAll(curves: seq<Option<AnimCurve>>, states: seq<ChannelState>) {
    && |states| == |curves|
    && forall i :: 0 <= i < |curves| && curves[i].Some? ==> Tracks(curves[i].value.keys, states[i])
  }

  /** No channel is past the latest key at or before `time`. */
  predicate Behind(curves: seq<Option<AnimCurve>>, states: seq<ChannelState>, time: int)
    requires |states| == |curves|
  {
    forall i :: 0 <= i < |curves| && curves[i].Some? ==> states[i].keyIndex <= LatestKey(curves[i].value.keys, time)
  }

  /** The channel's current key moves from `from` onto a key whose predecessor has
      constant interpolation, so the held value jumps at this sample time. */
  predicate LeavesConstantKey(curve: Option<AnimCurve>, from: int, time: int) {
    && curve.Some?
    && var to := LatestKey(curve.value.keys, time);
    && to > from
    && to >= 1
    && curve.value.keys[to - 1].interpolation == Constant
  }

  /** One channel of a sample step. A null curve keeps its state and writes 0. Otherwise
      the key advances; the value before the refresh is the held one when the channel
      left a constant key and the evaluated one otherwise; after it, the evaluated one. */
  function ChannelStep(curve: Option<AnimCurve>, state: ChannelState, held: real, time: int): (r: ChannelResult)
    ensures curve.Some? && -1 <= state.keyIndex < |curve.value.keys| ==> -1 <= r.state.keyIndex < |curve.value.keys|
  {
    if curve.None? then ChannelResult(state, false, 0.0, 0.0)
    else
      var a := AdvanceKey(curve.value.keys, state.keyIndex, state.isConstant, false, time);
      var v := curve.value.evaluate(time);
      ChannelResult(ChannelState(a.keyIndex, a.isConstant), a.wasConstant, if a.wasConstant then held else v, v)
  }

  function ChannelSteps(curves: seq<Option<AnimCurve>>, states: seq<ChannelState>, held: seq<real>, time: int): (rs: seq<ChannelResult>)
    requires |states| == |curves| && |held| == |curves|
    ensures |rs| == |curves|
  {
    seq(|curves|, i requires 0 <= i < |curves| => ChannelStep(curves[i], states[i], held[i], time))
  }

  /** One sample step of the whole group: a discontinuity when any channel has one. */
  function GroupStep(curves: seq<Option<AnimCurve>>, states: seq<ChannelState>, held: seq<real>, time: int): (s: Step)
    requires |states| == |curves| && |held| == |curves|
    ensures s.time == time && |s.states| == |curves|
    ensures ValidStates(curves, states) ==> ValidStates(curves, s.states)
    ensures |s.before| == |curves| && s.after == EvalAll(curves, time)
    ensures forall i :: 0 <= i < |curves| && curves[i].None? ==> s.states[i] == states[i]
  {
    var rs := ChannelSteps(curves, states, held, time);
    Step(time,
         seq(|rs|, i requires 0 <= i < |rs| => rs[i].state),
         exists i :: 0 <= i < |rs| && rs[i].discontinuity,
         seq(|rs|, i requires 0 <= i < |rs| => rs[i].before),
         seq(|rs|, i requires 0 <= i < |rs| => rs[i].after))
  }

  /** The steps at the given sample times, each starting from the channel states and
      values the previous one left. */
  function Trace(curves: seq<Option<AnimCurve>>, times: seq<int>, states: seq<ChannelState>, held: seq<real>): (tr: seq<Step>)
    requires |states| == |curves| && |held| == |curves|
    ensures |tr| == |times|
    decreases |times|
  {
    if |times| == 0 then []
    else
      var s := GroupStep(curves, states, held, times[0]);
      [s] + Trace(curves, times[1..], s.states, s.after)
  }

  /** Every channel starts before its first key (index -1), not constant. */
  function InitialStates(n: nat): (r: seq<ChannelState>)
    ensures |r| == n
  {
    seq(n, i => ChannelState(-1, false))
  }

  /** The sample times over the group's span, one frame apart, the last clamped. */
  function ResampleTimes(curves: seq<Option<AnimCurve>>, oneFrame: int): seq<int>
    requires oneFrame > 0
  {
    SampleTimes(SpanOf(curves).start, SpanOf(curves).end, oneFrame)
  }

  /** The sample steps over those times, from the initial channel states and values. */
  function ResampleTrace(curves: seq<Option<AnimCurve>>, oneFrame: int): (tr: seq<Step>)
    requires oneFrame > 0
    ensures |tr| == |ResampleTimes(curves, oneFrame)|
  {
    Trace(curves, ResampleTimes(curves, oneFrame), InitialStates(|curves|), Zeros(|curves|))
  }

  /** The resampled keyframes of a curve group, or None ("no animation") when no curve
      has a key. */
  function Resample(curves: seq<Option<AnimCurve>>, oneFrame: int): Option<seq<KeyFrame>>
    requires oneFrame > 0
  {
    var span := SpanOf(curves);
    if span.start == TimeInfinite || span.end == TimeMinusInfinite then None
    else Some(Emit(ResampleTrace(curves, oneFrame)))
  }

  /** With time-ordered keys, the advance loop started at or before the latest key at
      or before `time` stops exactly there; the flags are those of the keys it stepped
      onto and off. */
  lemma {:induction false} AdvanceKeyReachesLatestKey(keys: seq<CurveKey>, index: int, isConstant: bool, wasConstant: bool, time: int)
    requires forall j, k :: 0 <= j <= k < |keys| ==> keys[j].time <= keys[k].time
    requires -1 <= index <= LatestKey(keys, time)
    ensures var a := AdvanceKey(keys, index, isConstant, wasConstant, time);
      && a.keyIndex == LatestKey(keys, time)
      && (a.keyIndex > index ==> a.isConstant == (keys[a.keyIndex].interpolation == Constant))
      && (a.keyIndex == index ==> a.isConstant == isConstant && a.wasConstant == wasConstant)
      && (a.keyIndex == index + 1 ==> a.wasConstant == isConstant)
      && (a.keyIndex > index + 1 ==> a.wasConstant == (keys[a.keyIndex - 1].interpolation == Constant))
    decreases |keys| - index
  {
    if index + 1 < |keys| && keys[index + 1].time <= time {
      AdvanceKeyReachesLatestKey(keys, index + 1, keys[index + 1].interpolation == Constant, isConstant, time);
    } else if index + 1 < |keys| {
      assert forall m :: index < m < |keys| ==> keys[m].time >= keys[index + 1].time;
    }
  }

  /** One channel of a sample step, from a consistent state: it reaches the latest key,
      stays consistent, has a discontinuity exactly when it leaves a constant key, and
      writes the held value before the refresh only then. */
  lemma ChannelStepMeaning(curve: Option<AnimCurve>, state: ChannelState, held: real, time: int)
    requires curve.Some? ==> WellFormedCurve(curve.value)
    requires curve.Some? ==> Tracks(curve.value.keys, state) && state.keyIndex <= LatestKey(curve.value.keys, time)
    ensures var r := ChannelStep(curve, state, held, time);
      && r.after == (if curve.Some? then curve.value.evaluate(time) else 0.0)
      && (curve.Some? ==> r.state.keyIndex == LatestKey(curve.value.keys, time) && Tracks(curve.value.keys, r.state))
      && (r.discontinuity <==> LeavesConstantKey(curve, state.keyIndex, time))
      && r.before == (if LeavesConstantKey(curve, state.keyIndex, time) then held else r.after)
  {
    if curve.Some? {
      AdvanceKeyReachesLatestKey(curve.value.keys, state.keyIndex, state.isConstant, false, time);
    }
  }

  /** What a sample step at time `t` from channel states `ps` and held values `ph`
      means: it is stamped `t`; the values written last are the curves evaluated at `t`
      (0 for a null curve); every channel now sits, consistently, on its latest key at
      or before `t`; the step is a discontinuity exactly when some channel leaves a
      constant key; and the values written first are the held ones on exactly those
      channels and the new ones elsewhere. */
  predicate StepMeaning(curves: seq<Option<AnimCurve>>, ps: seq<ChannelState>, ph: seq<real>, t: int, step: Step)
    requires |ps| == |curves| && |ph| == |curves|
  {
    && step.time == t
    && step.after == EvalAll(curves, t)
    && |step.before| == |curves|
    && TracksAll(curves, step.states)
    && (forall i :: 0 <= i < |curves| && curves[i].Some? ==> step.states[i].keyIndex == LatestKey(curves[i].value.keys, t))
    && (step.discontinuity <==> exists i :: 0 <= i < |curves| && LeavesConstantKey(curves[i], ps[i].keyIndex, t))
    && (forall i :: 0 <= i < |curves| ==>
          step.before[i] == if LeavesConstantKey(curves[i], ps[i].keyIndex, t) then ph[i] else step.after[i])
  }

  /** A whole sample step from consistent states that are not past the latest keys
      means what StepMeaning states. */
  lemma GroupStepMeaning(curves: seq<Option<AnimCurve>>, states: seq<ChannelState>, held: seq<real>, time: int)
    requires WellFormedCurves(curves) && TracksAll(curves, states) && |held| == |curves|
    requires Behind(curves, states, time)
    ensures ValidStates(curves, states)
    ensures StepMeaning(curves, states, held, time, GroupStep(curves, states, held, time))
  {
    var rs := ChannelSteps(curves, states, held, time);
    forall i | 0 <= i < |curves|
      ensures rs[i].after == EvalAll(curves, time)[i]
      ensures curves[i].Some? ==> rs[i].state.keyIndex == LatestKey(curves[i].value.keys, time) && Tracks(curves[i].value.keys, rs[i].state)
      ensures rs[i].discontinuity <==> LeavesConstantKey(curves[i], states[i].keyIndex, time)
      ensures rs[i].before == if LeavesConstantKey(curves[i], states[i].keyIndex, time) then held[i] else rs[i].after
    {
      ChannelStepMeaning(curves[i], states[i], held[i], time);
    }
  }

  /** The previous step's states and values, or the initial ones for the first step. */
  function PriorStates(tr: seq<Step>, states: seq<ChannelState>, k: nat): seq<ChannelState>
    requires k < |tr|
  {
    if k == 0 then states else tr[k - 1].states
  }

  function PriorValues(tr: seq<Step>, held: seq<real>, k: nat): seq<real>
    requires k < |tr|
  {
    if k == 0 then held else tr[k - 1].after
  }

  /** Step k of a trace is the group step from the states and values the step before
      it left. */
  lemma {:induction false} TraceAt(curves: seq<Option<AnimCurve>>, times: seq<int>, states: seq<ChannelState>, held: seq<real>, k: nat)
    requires ValidStates(curves, states) && |held| == |curves| && k < |times|
    ensures ValidStates(curves, PriorStates(Trace(curves, times, states, held), states, k))
    ensures |PriorValues(Trace(curves, times, states, held), held, k)| == |curves|
    ensures Trace(curves, times, states, held)[k]
         == GroupStep(curves, PriorStates(Trace(curves, times, states, held), states, k), PriorValues(Trace(curves, times, states, held), held, k), times[k])
    decreases k
  {
    if k > 0 {
      var s := GroupStep(curves, states, held, times[0]);
      TraceAt(curves, times[1..], s.states, s.after, k - 1);
      TraceShift(curves, times, states, held, k);
    }
  }

  /** Step k > 0 of a trace, and the states and values before it, are step k - 1 of the
      trace that starts after the first step, and the states and values before that. */
  lemma TraceShift(curves: seq<Option<AnimCurve>>, times: seq<int>, states: seq<ChannelState>, held: seq<real>, k: nat)
    requires ValidStates(curves, states) && |held| == |curves| && 0 < k < |times|
    ensures var s := GroupStep(curves, states, held, times[0]);
      var tr, tail := Trace(curves, times, states, held), Trace(curves, times[1..], s.states, s.after);
      && times[k] == times[1..][k - 1]
      && tr[k] == tail[k - 1]
      && PriorStates(tr, states, k) == PriorStates(tail, s.states, k - 1)
      && PriorValues(tr, held, k) == PriorValues(tail, s.after, k - 1)
  {
    var s := GroupStep(curves, states, held, times[0]);
    assert Trace(curves, times, states, held) == [s] + Trace(curves, times[1..], s.states, s.after);
  }

  /** A channel settled at time t: on the latest key at or before t, with that key's
      constant flag. */
  function KeyState(keys: seq<CurveKey>, t: int): (s: ChannelState)
    ensures Tracks(keys, s)
  {
    var j := LatestKey(keys, t);
    ChannelState(j, j >= 0 && keys[j].interpolation == Constant)
  }

  /** Every channel with a curve settled at time t; the others keep their state. */
  function Settled(curves: seq<Option<AnimCurve>>, states: seq<ChannelState>, t: int): (r: seq<ChannelState>)
    requires |states| == |curves|
    ensures |r| == |curves|
  {
    seq(|curves|, i requires 0 <= i < |curves| => if curves[i].Some? then KeyState(curves[i].value.keys, t) else states[i])
  }

  /** A step from consistent states not past the latest keys leaves every channel
      settled at its time. */
  lemma GroupStepSettles(curves: seq<Option<AnimCurve>>, states: seq<ChannelState>, held: seq<real>, time: int)
    requires WellFormedCurves(curves) && TracksAll(curves, states) && |held| == |curves|
    requires Behind(curves, states, time)
    ensures ValidStates(curves, states)
    ensures GroupStep(curves, states, held, time).states == Settled(curves, states, time)
  {
    GroupStepMeaning(curves, states, held, time);
    var s := GroupStep(curves, states, held, time);
    assert forall i :: 0 <= i < |curves| ==> s.states[i] == Settled(curves, states, time)[i];
  }

  /** Over increasing sample times from consistent states not past the first time's
      latest keys, step k leaves every channel settled at its time. */
  lemma {:induction false} TraceSettledAt(curves: seq<Option<AnimCurve>>, times: seq<int>, states: seq<ChannelState>, held: seq<real>, k: nat)
    requires WellFormedCurves(curves) && TracksAll(curves, states) && |held| == |curves|
    requires StrictlyIncreasing(times) && k < |times| && Behind(curves, states, times[0])
    ensures ValidStates(curves, states)
    ensures Trace(curves, times, states, held)[k].states == Settled(curves, states, times[k])
    decreases k
  {
    var s := GroupStep(curves, states, held, times[0]);
    GroupStepSettles(curves, states, held, times[0]);
    if k > 0 {
      var rest := times[1..];
      assert StrictlyIncreasing(rest);
      SettledBehind(curves, states, times[0], rest[0]);
      TraceSettledAt(curves, rest, s.states, s.after, k - 1);
      TraceShift(curves, times, states, held, k);
      assert Settled(curves, s.states, times[k]) == Settled(curves, states, times[k]);
    }
  }

  /** Settled states are consistent, and not past the latest keys at any later time. */
  lemma SettledBehind(curves: seq<Option<AnimCurve>>, states: seq<ChannelState>, t: int, later: int)
    requires |states| == |curves| && t <= later
    ensures TracksAll(curves, Settled(curves, states, t)) && Behind(curves, Settled(curves, states, t), later)
  {
    forall i | 0 <= i < |curves| && curves[i].Some?
      ensures Settled(curves, states, t)[i].keyIndex <= LatestKey(curves[i].value.keys, later)
    {
      LatestKeyMonotonic(curves[i].value.keys, t, later);
    }
  }

  /** The key a channel held before sample step k: -1 before the first step, else the
      latest key at the previous sample time. */
  function PriorKey(curve: Option<AnimCurve>, times: seq<int>, k: nat): int
    requires k < |times|
  {
    if k == 0 || curve.None? then -1 else LatestKey(curve.value.keys, times[k - 1])
  }

  /** What sample step k over `times` from the initial state does: it is stamped with
      its sample time; the values written last are the curves evaluated at that time
      (0 for a null curve); the step is a discontinuity exactly when some curve's latest
      key moves onto a key whose predecessor has constant interpolation; and the values
      written first hold, on exactly those channels, the previous sample's values (0 at
      the first sample) and elsewhere the new ones. */
  predicate FollowsKeys(curves: seq<Option<AnimCurve>>, times: seq<int>, k: nat, step: Step)
    requires k < |times|
  {
    && step.time == times[k]
    && step.after == EvalAll(curves, times[k])
    && |step.before| == |curves|
    && (step.discontinuity <==>
          exists i :: 0 <= i < |curves| && LeavesConstantKey(curves[i], PriorKey(curves[i], times, k), times[k]))
    && forall i :: 0 <= i < |curves| ==>
         step.before[i] ==
           if LeavesConstantKey(curves[i], PriorKey(curves[i], times, k), times[k])
           then (if k == 0 then 0.0 else EvalAll(curves, times[k - 1])[i])
           else step.after[i]
  }

  /** The values held before step k: zero before the first step, else the curves
      evaluated at the previous sample time. */
  function PriorSample(curves: seq<Option<AnimCurve>>, times: seq<int>, k: nat): (r: seq<real>)
    requires k < |times|
    ensures |r| == |curves|
  {
    if k == 0 then Zeros(|curves|) else EvalAll(curves, times[k - 1])
  }

  /** A step that means what StepMeaning states, from channels on their prior keys and
      holding the prior sample, follows the curves' keys. */
  lemma MeaningFollowsKeys(curves: seq<Option<AnimCurve>>, times: seq<int>, k: nat, ps: seq<ChannelState>, step: Step)
    requires k < |times| && |ps| == |curves|
    requires forall i :: 0 <= i < |curves| && curves[i].Some? ==> ps[i].keyIndex == PriorKey(curves[i], times, k)
    requires StepMeaning(curves, ps, PriorSample(curves, times, k), times[k], step)
    ensures FollowsKeys(curves, times, k, step)
  {
    forall i | 0 <= i < |curves|
      ensures LeavesConstantKey(curves[i], ps[i].keyIndex, times[k]) == LeavesConstantKey(curves[i], PriorKey(curves[i], times, k), times[k])
    {
    }
  }

  /** The initial channel states are consistent and behind every time. */
  lemma InitialBehind(curves: seq<Option<AnimCurve>>, t: int)
    ensures TracksAll(curves, InitialStates(|curves|)) && Behind(curves, InitialStates(|curves|), t)
  {
  }

  /** Before step k > 0 of a trace from the initial state, every channel is settled at
      the previous sample time. */
  lemma PriorAt(curves: seq<Option<AnimCurve>>, times: seq<int>, k: nat)
    requires WellFormedCurves(curves) && StrictlyIncreasing(times) && 0 < k < |times|
    ensures Trace(curves, times, InitialStates(|curves|), Zeros(|curves|))[k - 1].states == Settled(curves, InitialStates(|curves|), times[k - 1])
  {
    InitialBehind(curves, times[0]);
    TraceSettledAt(curves, times, InitialStates(|curves|), Zeros(|curves|), k - 1);
  }

  /** States that are consistent, not past the latest keys at times[k], and on key
      PriorKey of every present curve. */
  predicate OnPriorKeys(curves: seq<Option<AnimCurve>>, times: seq<int>, k: nat, ps: seq<ChannelState>)
    requires k < |times|
  {
    && TracksAll(curves, ps) && Behind(curves, ps, times[k])
    && (forall i :: 0 <= i < |curves| && curves[i].Some? ==> ps[i].keyIndex == PriorKey(curves[i], times, k))
  }

  /** Step k of a trace from the initial state is the group step from states that are
      consistent, not past the latest keys at times[k], and on key PriorKey. */
  lemma PriorStatesAt(curves: seq<Option<AnimCurve>>, times: seq<int>, k: nat)
    requires WellFormedCurves(curves) && StrictlyIncreasing(times) && k < |times|
    ensures var tr := Trace(curves, times, InitialStates(|curves|), Zeros(|curves|));
      OnPriorKeys(curves, times, k, PriorStates(tr, InitialStates(|curves|), k))
  {
    var init := InitialStates(|curves|);
    var ps := PriorStates(Trace(curves, times, init, Zeros(|curves|)), init, k);
    if k == 0 {
      InitialBehind(curves, times[0]);
      assert ps == init;
    } else {
      PriorAt(curves, times, k);
      assert ps == Settled(curves, init, times[k - 1]);
      SettledBehind(curves, init, times[k - 1], times[k]);
    }
    assert TracksAll(curves, ps) && Behind(curves, ps, times[k]);
  }

  /** The values before step k of a trace from the initial state are the prior sample. */
  lemma PriorValuesAt(curves: seq<Option<AnimCurve>>, times: seq<int>, k: nat)
    requires k < |times|
    ensures PriorValues(Trace(curves, times, InitialStates(|curves|), Zeros(|curves|)), Zeros(|curves|), k) == PriorSample(curves, times, k)
  {
    TraceSamples(curves, times, InitialStates(|curves|), Zeros(|curves|));
  }

  /** Step k of a trace from the initial state follows the curves' keys. */
  lemma FollowsKeysAtStep(curves: seq<Option<AnimCurve>>, times: seq<int>, k: nat)
    requires WellFormedCurves(curves) && StrictlyIncreasing(times) && k < |times|
    ensures FollowsKeys(curves, times, k, Trace(curves, times, InitialStates(|curves|), Zeros(|curves|))[k])
  {
    var n := |curves|;
    var init, zeros := InitialStates(n), Zeros(n);
    var tr := Trace(curves, times, init, zeros);
    TraceAt(curves, times, init, zeros, k);
    PriorStatesAt(curves, times, k);
    PriorValuesAt(curves, times, k);
    var ps := PriorStates(tr, init, k);
    var held := PriorSample(curves, times, k);
    StepFollowsKeys(curves, times, k, ps, held, tr[k]);
  }

  /** The group step from the prior keys and the prior sample follows the keys. */
  lemma StepFollowsKeys(curves: seq<Option<AnimCurve>>, times: seq<int>, k: nat, ps: seq<ChannelState>, held: seq<real>, step: Step)
    requires WellFormedCurves(curves) && k < |times|
    requires OnPriorKeys(curves, times, k, ps)
    requires held == PriorSample(curves, times, k)
    requires step == GroupStep(curves, ps, held, times[k])
    ensures FollowsKeys(curves, times, k, step)
  {
    GroupStepMeaning(curves, ps, held, times[k]);
    MeaningFollowsKeys(curves, times, k, ps, step);
  }

  /** The resampler's behaviour step by step: Resample is the keyframes of the trace
      over the sample times from the initial state, and every step of that trace
      follows the curves' keys as FollowsKeys states. */
  lemma ResampleFollowsKeys(curves: seq<Option<AnimCurve>>, oneFrame: int)
    requires oneFrame > 0 && WellFormedCurves(curves) && !NoKeys(curves)
    ensures Resample(curves, oneFrame) == Some(Emit(ResampleTrace(curves, oneFrame)))
    ensures forall k :: 0 <= k < |ResampleTrace(curves, oneFrame)| ==>
      FollowsKeys(curves, ResampleTimes(curves, oneFrame), k, ResampleTrace(curves, oneFrame)[k])
  {
    assert FiniteKeyTimes(curves);
    SpanIsEarliestAndLatest(curves);
    var times := ResampleTimes(curves, oneFrame);
    SampleTimesIncrease(SpanOf(curves).start, SpanOf(curves).end, oneFrame);
    SampleTimesShape(SpanOf(curves).start, SpanOf(curves).end, oneFrame);
    var tr := ResampleTrace(curves, oneFrame);
    forall k | 0 <= k < |tr|
      ensures FollowsKeys(curves, times, k, tr[k])
    {
      FollowsKeysAtStep(curves, times, k);
    }
  }

  /** Resample reports no animation exactly when no curve has a key. */
  lemma ResampleNoneIffNoKeys(curves: seq<Option<AnimCurve>>, oneFrame: int)
    requires oneFrame > 0 && FiniteKeyTimes(curves)
    ensures Resample(curves, oneFrame).None? <==> NoKeys(curves)
  {
    SpanIsEarliestAndLatest(curves);
  }

  /** Every step of a trace is stamped with its sample time and ends on the curves
      evaluated there. */
  lemma {:induction false} TraceSamples(curves: seq<Option<AnimCurve>>, times: seq<int>, states: seq<ChannelState>, held: seq<real>)
    requires ValidStates(curves, states) && |held| == |curves|
    ensures forall k :: 0 <= k < |times| ==>
      Trace(curves, times, states, held)[k].time == times[k] && Trace(curves, times, states, held)[k].after == EvalAll(curves, times[k])
    decreases |times|
  {
    if |times| > 0 {
      var s := GroupStep(curves, states, held, times[0]);
      TraceSamples(curves, times[1..], s.states, s.after);
      assert Trace(curves, times, states, held) == [s] + Trace(curves, times[1..], s.states, s.after);
    }
  }

  /** The shape of the resampled curve when some curve has a key: keyframes in time
      order from the earliest first key time to the latest last key time, one per
      sample step plus three per discontinuity, and each step's last keyframe holds the
      curves evaluated at its sample time. */
  lemma ResampleShape(curves: seq<Option<AnimCurve>>, oneFrame: int)
    requires oneFrame > 0 && WellFormedCurves(curves) && !NoKeys(curves)
    ensures Resample(curves, oneFrame) == Some(Emit(ResampleTrace(curves, oneFrame)))
    ensures KeyFrameTimesOrdered(Emit(ResampleTrace(curves, oneFrame)))
    ensures |Emit(ResampleTrace(curves, oneFrame))| > 0
    ensures Emit(ResampleTrace(curves, oneFrame))[0].time == SpanOf(curves).start
    ensures Last(Emit(ResampleTrace(curves, oneFrame))).time == SpanOf(curves).end
    ensures |Emit(ResampleTrace(curves, oneFrame))| == |ResampleTimes(curves, oneFrame)| + 3 * DiscontinuityCount(ResampleTrace(curves, oneFrame))
    ensures forall k :: 0 <= k < |ResampleTimes(curves, oneFrame)| ==>
      && 0 <= BlockEnd(ResampleTrace(curves, oneFrame), k) < |Emit(ResampleTrace(curves, oneFrame))|
      && Emit(ResampleTrace(curves, oneFrame))[BlockEnd(ResampleTrace(curves, oneFrame), k)]
         == KeyFrame(ResampleTimes(curves, oneFrame)[k], EvalAll(curves, ResampleTimes(curves, oneFrame)[k]))
  {
    assert FiniteKeyTimes(curves);
    SpanIsEarliestAndLatest(curves);
    SpanOrdered(curves);
    var times := ResampleTimes(curves, oneFrame);
    SampleTimesShape(SpanOf(curves).start, SpanOf(curves).end, oneFrame);
    SampleTimesIncrease(SpanOf(curves).start, SpanOf(curves).end, oneFrame);
    TraceSamples(curves, times, InitialStates(|curves|), Zeros(|curves|));
    EmitFollowsSamples(curves, times, ResampleTrace(curves, oneFrame));
  }

  /** ProcessAnimationCurveFloatsHelper: the keyframes of the first `numCurves` curves,
      resampled at one key per frame, or None when no curve has a key. */
  method ProcessAnimationCurveFloatsHelper(curves: seq<Option<AnimCurve>>, numCurves: nat, oneFrame: int)
    returns (keyFrames: Option<seq<KeyFrame>>)
    requires numCurves <= 4 && numCurves <= |curves|
    requires oneFrame > 0
    ensures keyFrames == Resample(curves[..numCurves], oneFrame)
  {
    var cs := curves[..numCurves];
    var startTime, endTime := CurvesTimeSpan(cs);
    if startTime == TimeInfinite || endTime == TimeMinusInfinite {
      // No animation
      return None;
    }
    var frames := SampleCurves(cs, startTime, endTime, oneFrame);
    RemainingIsEmitTrace(cs, SampleTimes(startTime, endTime, oneFrame), InitialStates(|cs|), Zeros(|cs|));
    return Some(frames);
  }

  /** The first loop: the earliest first key time and the latest last key time over
      the curves with keys, null curves skipped. */
  method CurvesTimeSpan(curves: seq<Option<AnimCurve>>) returns (startTime: int, endTime: int)
    ensures Span(startTime, endTime) == SpanOf(curves)
  {
    startTime, endTime := TimeInfinite, TimeMinusInfinite;
    for i := 0 to |curves|
      invariant Span(startTime, endTime) == SpanOf(curves[..i])
    {
      SpanOfSnoc(curves, i);
      var curve := curves[i];
      if curve.Some? && |curve.value.keys| > 0 {
        var firstKeyTime := curve.value.keys[0].time;
        var lastKeyTime := curve.value.keys[|curve.value.keys| - 1].time;
        if startTime > firstKeyTime {
          startTime := firstKeyTime;
        }
        if endTime < lastKeyTime {
          endTime := lastKeyTime;
        }
      }
    }
    assert curves[..|curves|] == curves;
  }

  /** The sampling loop: each frame from the start time, plus a last frame clamped to
      the end time, appends the keyframes of one sample step. */
  method SampleCurves(curves: seq<Option<AnimCurve>>, startTime: int, endTime: int, oneFrame: int)
    returns (frames: seq<KeyFrame>)
    requires oneFrame > 0
    ensures frames == Remaining(curves, SampleTimes(startTime, endTime, oneFrame), InitialStates(|curves|), Zeros(|curves|))
  {
    var currentKeyIndices, isConstant, values := InitialChannels(|curves|);
    ghost var expected := Remaining(curves, SampleTimes(startTime, endTime, oneFrame), InitialStates(|curves|), Zeros(|curves|));
    frames := [];
    var time := startTime;
    var lastFrame := false;
    while time < endTime || !lastFrame
      invariant lastFrame ==> time > endTime
      invariant ValidStates(curves, StatesOf(currentKeyIndices[..], isConstant[..]))
      invariant frames + Remaining(curves, Pending(time, endTime, oneFrame, lastFrame), StatesOf(currentKeyIndices[..], isConstant[..]), values[..]) == expected
      decreases |Pending(time, endTime, oneFrame, lastFrame)|
    {
      var block;
      ghost var before := Remaining(curves, Pending(time, endTime, oneFrame, lastFrame), StatesOf(currentKeyIndices[..], isConstant[..]), values[..]);
      block, time, lastFrame := SampleFrame(curves, currentKeyIndices, isConstant, values, time, endTime, oneFrame, lastFrame);
      assert (frames + block) + Remaining(curves, Pending(time, endTime, oneFrame, lastFrame), StatesOf(currentKeyIndices[..], isConstant[..]), values[..])
          == frames + before;
      frames := frames + block;
    }
  }

  /** One turn of the sampling loop: the last frame is clamped to the end time, one
      sample step is taken, and time moves on by a frame. */
  method SampleFrame(curves: seq<Option<AnimCurve>>, currentKeyIndices: array<int>, isConstant: array<bool>, values: array<real>,
                     time: int, endTime: int, oneFrame: int, lastFrame: bool)
    returns (block: seq<KeyFrame>, nextTime: int, nextLastFrame: bool)
    requires currentKeyIndices.Length == |curves| && isConstant.Length == |curves| && values.Length == |curves|
    requires ValidStates(curves, StatesOf(currentKeyIndices[..], isConstant[..]))
    requires oneFrame > 0 && (time < endTime || !lastFrame) && (lastFrame ==> time > endTime)
    modifies currentKeyIndices, isConstant, values
    ensures nextLastFrame ==> nextTime > endTime
    ensures ValidStates(curves, StatesOf(currentKeyIndices[..], isConstant[..]))
    ensures |Pending(nextTime, endTime, oneFrame, nextLastFrame)| < |Pending(time, endTime, oneFrame, lastFrame)|
    ensures old(Remaining(curves, Pending(time, endTime, oneFrame, lastFrame), StatesOf(currentKeyIndices[..], isConstant[..]), values[..]))
         == block + Remaining(curves, Pending(nextTime, endTime, oneFrame, nextLastFrame), StatesOf(currentKeyIndices[..], isConstant[..]), values[..])
  {
    ghost var rest := Pending(time, endTime, oneFrame, lastFrame);
    PendingStep(time, endTime, oneFrame, lastFrame);
    nextTime, nextLastFrame := time, lastFrame;
    // The last frame is sampled at the end time
    if nextTime >= endTime {
      nextLastFrame := true;
      nextTime := endTime;
    }
    block := SampleStep(curves, currentKeyIndices, isConstant, values, nextTime, rest);
    nextTime := nextTime + oneFrame;
  }

  /** The keyframes still to be appended for the given sample times, from the given
      channel states and held values. */
  ghost function Remaining(curves: seq<Option<AnimCurve>>, times: seq<int>, states: seq<ChannelState>, held: seq<real>): seq<KeyFrame>
    decreases |times|
  {
    if |times| == 0 || |states| != |curves| || |held| != |curves| then []
    else
      var s := GroupStep(curves, states, held, times[0]);
      Block(s) + Remaining(curves, times[1..], s.states, s.after)
  }

  /** The keyframes still to be appended are those of the trace over the remaining times. */
  lemma {:induction false} RemainingIsEmitTrace(curves: seq<Option<AnimCurve>>, times: seq<int>, states: seq<ChannelState>, held: seq<real>)
    requires |states| == |curves| && |held| == |curves|
    ensures Remaining(curves, times, states, held) == Emit(Trace(curves, times, states, held))
    decreases |times|
  {
    if |times| > 0 {
      var s := GroupStep(curves, states, held, times[0]);
      RemainingIsEmitTrace(curves, times[1..], s.states, s.after);
      EmitCons(s, Trace(curves, times[1..], s.states, s.after));
    }
  }

  /** The channel arrays at the start: every key index -1 (so the first step advances
      to key 0), no constant flag, and the zero-initialised key value. */
  method InitialChannels(numCurves: nat) returns (currentKeyIndices: array<int>, isConstant: array<bool>, values: array<real>)
    ensures fresh(currentKeyIndices) && fresh(isConstant) && fresh(values)
    ensures currentKeyIndices.Length == numCurves && isConstant.Length == numCurves && values.Length == numCurves
    ensures StatesOf(currentKeyIndices[..], isConstant[..]) == InitialStates(numCurves)
    ensures values[..] == Zeros(numCurves)
  {
    currentKeyIndices := new int[numCurves];
    isConstant := new bool[numCurves];
    for i := 0 to numCurves
      invariant forall j :: 0 <= j < i ==> currentKeyIndices[j] == -1 && !isConstant[j]
    {
      currentKeyIndices[i] := -1;
      isConstant[i] := false;
    }
    values := new real[numCurves](_ => 0.0);
    assert StatesOf(currentKeyIndices[..], isConstant[..]) == InitialStates(numCurves);
    assert values[..] == Zeros(numCurves);
  }

  /** The body of one turn of the sampling loop: advance every channel's key, write the
      values, and append the step's keyframes (four at a discontinuity, else one). */
  method SampleStep(curves: seq<Option<AnimCurve>>, currentKeyIndices: array<int>, isConstant: array<bool>, values: array<real>, time: int,
                    ghost times: seq<int>)
    returns (block: seq<KeyFrame>)
    requires currentKeyIndices.Length == |curves| && isConstant.Length == |curves| && values.Length == |curves|
    requires ValidStates(curves, StatesOf(currentKeyIndices[..], isConstant[..]))
    requires |times| > 0 && times[0] == time
    modifies currentKeyIndices, isConstant, values
    ensures ValidStates(curves, StatesOf(currentKeyIndices[..], isConstant[..]))
    ensures old(Remaining(curves, times, StatesOf(currentKeyIndices[..], isConstant[..]), values[..]))
         == block + Remaining(curves, times[1..], StatesOf(currentKeyIndices[..], isConstant[..]), values[..])
  {
    block := StepArrays(curves, currentKeyIndices, isConstant, values, time);
  }

  /** One sample step on the channel arrays: advance every channel's key, write the
      values, and return the step's keyframes (four at a discontinuity, else one). */
  method StepArrays(curves: seq<Option<AnimCurve>>, currentKeyIndices: array<int>, isConstant: array<bool>, values: array<real>, time: int)
    returns (block: seq<KeyFrame>)
    requires currentKeyIndices.Length == |curves| && isConstant.Length == |curves| && values.Length == |curves|
    requires ValidStates(curves, StatesOf(currentKeyIndices[..], isConstant[..]))
    modifies currentKeyIndices, isConstant, values
    ensures var s := GroupStep(curves, old(StatesOf(currentKeyIndices[..], isConstant[..])), old(values[..]), time);
      && block == Block(s)
      && StatesOf(currentKeyIndices[..], isConstant[..]) == s.states
      && values[..] == s.after
  {
    ghost var s := GroupStep(curves, StatesOf(currentKeyIndices[..], isConstant[..]), values[..], time);
    ghost var rs := ChannelSteps(curves, StatesOf(currentKeyIndices[..], isConstant[..]), values[..], time);
    var hasAnyDiscontinuity, hasDiscontinuity := AdvanceChannels(curves, currentKeyIndices, isConstant, values, time, rs);
    assert StatesOf(currentKeyIndices[..], isConstant[..]) == s.states;
    assert values[..] == s.before;
    assert hasAnyDiscontinuity == s.discontinuity;

    // At a discontinuity the previous values go in twice, then the new values twice
    block := [];
    if hasAnyDiscontinuity {
      block := [KeyFrame(time, values[..]), KeyFrame(time, values[..])];
    }
    UpdateConstantValues(curves, hasDiscontinuity, values, time);
    assert values[..] == s.after;

    block := block + [KeyFrame(time, values[..])];
    if hasAnyDiscontinuity {
      block := block + [KeyFrame(time, values[..])];
    }
  }

  /** The first loop of a sample step: each non-null channel advances its key and, unless
      it left a constant key, writes its evaluated value; a null channel writes 0. */
  method AdvanceChannels(curves: seq<Option<AnimCurve>>, currentKeyIndices: array<int>, isConstant: array<bool>, values: array<real>, time: int,
                         ghost rs: seq<ChannelResult>)
    returns (hasAnyDiscontinuity: bool, hasDiscontinuity: array<bool>)
    requires currentKeyIndices.Length == |curves| && isConstant.Length == |curves| && values.Length == |curves|
    requires ValidStates(curves, StatesOf(currentKeyIndices[..], isConstant[..]))
    requires rs == ChannelSteps(curves, StatesOf(currentKeyIndices[..], isConstant[..]), values[..], time)
    modifies currentKeyIndices, isConstant, values
    ensures fresh(hasDiscontinuity) && hasDiscontinuity.Length == |curves|
    ensures forall j :: 0 <= j < |curves| ==>
      && ChannelState(currentKeyIndices[j], isConstant[j]) == rs[j].state
      && values[j] == rs[j].before
      && (curves[j].Some? ==> hasDiscontinuity[j] == rs[j].discontinuity)
    ensures hasAnyDiscontinuity <==> exists j :: 0 <= j < |curves| && rs[j].discontinuity
  {
    hasAnyDiscontinuity := false;
    hasDiscontinuity := new bool[|curves|];
    for i := 0 to |curves|
      invariant forall j :: 0 <= j < i ==>
        && ChannelState(currentKeyIndices[j], isConstant[j]) == rs[j].state
        && values[j] == rs[j].before
        && (curves[j].Some? ==> hasDiscontinuity[j] == rs[j].discontinuity)
      invariant forall j :: i <= j < |curves| ==>
        && currentKeyIndices[j] == old(currentKeyIndices[j])
        && isConstant[j] == old(isConstant[j])
        && values[j] == old(values[j])
      invariant hasAnyDiscontinuity <==> exists j :: 0 <= j < i && rs[j].discontinuity
    {
      var wasConstant := StepChannel(curves[i], i, currentKeyIndices, isConstant, values, hasDiscontinuity, time);
      hasAnyDiscontinuity := hasAnyDiscontinuity || wasConstant;
    }
  }

  /** Channel i of the first loop: a non-null curve advances its key, records whether
      it left a constant key, and writes its evaluated value unless it did; a null curve
      writes 0 and leaves its flags alone. */
  method StepChannel(curve: Option<AnimCurve>, i: nat, currentKeyIndices: array<int>, isConstant: array<bool>,
                     values: array<real>, hasDiscontinuity: array<bool>, time: int)
    returns (wasConstant: bool)
    requires i < currentKeyIndices.Length == isConstant.Length == values.Length == hasDiscontinuity.Length
    requires isConstant != hasDiscontinuity
    requires curve.Some? ==> -1 <= currentKeyIndices[i] < |curve.value.keys|
    modifies currentKeyIndices, isConstant, values, hasDiscontinuity
    ensures var r := ChannelStep(curve, ChannelState(old(currentKeyIndices[i]), old(isConstant[i])), old(values[i]), time);
      && ChannelState(currentKeyIndices[i], isConstant[i]) == r.state
      && values[i] == r.before
      && wasConstant == r.discontinuity
      && (curve.Some? ==> hasDiscontinuity[i] == r.discontinuity)
    ensures forall j :: 0 <= j < values.Length && j != i ==>
      && currentKeyIndices[j] == old(currentKeyIndices[j]) && isConstant[j] == old(isConstant[j])
      && values[j] == old(values[j]) && hasDiscontinuity[j] == old(hasDiscontinuity[j])
  {
    wasConstant := false;
    if curve.Some? {
      var currentIndex, constant;
      currentIndex, constant, wasConstant := AdvanceChannel(curve.value.keys, currentKeyIndices[i], isConstant[i], time);
      currentKeyIndices[i] := currentIndex;
      isConstant[i] := constant;
      hasDiscontinuity[i] := wasConstant;
      // Update non-constant values
      if !wasConstant {
        values[i] := curve.value.evaluate(time);
      }
    } else {
      values[i] := 0.0;
    }
  }

  /** The second loop of a sample step: each channel flagged as discontinuous writes
      its evaluated value (0 for a null curve); the others keep theirs. */
  method UpdateConstantValues(curves: seq<Option<AnimCurve>>, hasDiscontinuity: array<bool>, values: array<real>, time: int)
    requires hasDiscontinuity.Length == |curves| && values.Length == |curves|
    modifies values
    ensures forall j :: 0 <= j < |curves| ==>
      values[j] == if hasDiscontinuity[j] then EvalAll(curves, time)[j] else old(values[j])
  {
    for i := 0 to |curves|
      invariant forall j :: 0 <= j < i ==>
        values[j] == if hasDiscontinuity[j] then EvalAll(curves, time)[j] else old(values[j])
      invariant forall j :: i <= j < |curves| ==> values[j] == old(values[j])
    {
      if hasDiscontinuity[i] {
        values[i] := if curves[i].None? then 0.0 else curves[i].value.evaluate(time);
      }
    }
  }

  /** The key-advance loop of one channel, from its current key index and constant flag. */
  method AdvanceChannel(keys: seq<CurveKey>, index: int, isConstant: bool, time: int)
    returns (currentIndex: int, constant: bool, wasConstant: bool)
    requires -1 <= index < |keys|
    ensures Advance(currentIndex, constant, wasConstant) == AdvanceKey(keys, index, isConstant, false, time)
  {
    currentIndex, constant := index, isConstant;
    // Advance to the latest key at or before the current time
    wasConstant := false;
    while currentIndex + 1 < |keys| && keys[currentIndex + 1].time <= time
      invariant -1 <= currentIndex < |keys|
      invariant AdvanceKey(keys, currentIndex, constant, wasConstant, time) == AdvanceKey(keys, index, isConstant, false, time)
      decreases |keys| - currentIndex
    {
      currentIndex := currentIndex + 1;
      // Reaching a new key after a constant one is a discontinuity
      wasConstant := constant;
      constant := keys[currentIndex].interpolation == Constant;
    }
  }
}
