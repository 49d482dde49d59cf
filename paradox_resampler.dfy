/** The Paradox importer's resampler (ProcessAnimationCurveFloatsHelper): the group is
    skipped when any of its curves is null; otherwise it is sampled once per frame over
    its combined time span like the Xenko one. Its key-advance loop differs: every
    channel starts on key 0, the loop tests the time of the key it is on (so it stops
    on the first key after the sample time), and a step off a key whose constant flag
    is set marks a discontinuity. */
module ParadoxResampler {
  import opened Wrappers
  import opened Fbx
  import opened Sampling

  /** No curve of the group is null. */
  predicate AllPresent(curves: seq<Option<AnimCurve>>) {
    forall i :: 0 <= i < |curves| ==> curves[i].Some?
  }

  /** The curves of a group with no null curve. */
  function Unwrap(curves: seq<Option<AnimCurve>>): (cs: seq<AnimCurve>)
    requires AllPresent(curves)
    ensures |cs| == |curves|
  {
    seq(|curves|, i requires 0 <= i < |curves| && curves[i].Some? => curves[i].value)
  }

  /** The curves seen as a group whose members may be null. */
  function Lift(cs: seq<AnimCurve>): (curves: seq<Option<AnimCurve>>)
    ensures |curves| == |cs|
  {
    seq(|cs|, i requires 0 <= i < |cs| => Some(cs[i]))
  }

  /** Unwrapping a group with no null curve and lifting it back gives the group. */
  lemma LiftUnwrap(curves: seq<Option<AnimCurve>>)
    requires AllPresent(curves)
    ensures Lift(Unwrap(curves)) == curves
  {
    assert forall i :: 0 <= i < |curves| ==> Lift(Unwrap(curves))[i] == curves[i];
  }

  /** A lifted group has no null curve, and its keys are those of the curves. */
  lemma LiftPresent(cs: seq<AnimCurve>)
    ensures AllPresent(Lift(cs))
    ensures forall i :: 0 <= i < |cs| ==> HasKeys(Lift(cs)[i]) == (|cs[i].keys| > 0)
  {
  }

  /** Every curve of the group has finite key times in time order. */
  predicate WellFormedAll(cs: seq<AnimCurve>) {
    forall i :: 0 <= i < |cs| ==> WellFormedCurve(cs[i])
  }

  /** The curves of a well-formed group with no null curve are well-formed. */
  lemma UnwrapWellFormed(curves: seq<Option<AnimCurve>>)
    requires AllPresent(curves) && WellFormedCurves(curves)
    ensures WellFormedAll(Unwrap(curves))
  {
    forall i | 0 <= i < |curves|
      ensures WellFormedCurve(Unwrap(curves)[i])
    {
      assert Unwrap(curves)[i] == curves[i].value;
    }
  }

  /** The key-advance loop of one channel: while the current key is at or before the
      sample time and is not the last, step to the next key; a step taken while the
      constant flag is set marks a discontinuity; the flag becomes that of the key
      reached. */
  function AdvanceKey(keys: seq<CurveKey>, index: int, isConstant: bool, discontinuity: bool, time: int): (a: Advance)
    ensures index <= a.keyIndex
    ensures a.keyIndex == index || a.keyIndex < |keys|
    decreases |keys| - index
  {
    if 0 <= index && index + 1 < |keys| && keys[index].time <= time then
      AdvanceKey(keys, index + 1, keys[index + 1].interpolation == Constant, discontinuity || isConstant, time)
    else
      Advance(index, isConstant, discontinuity)
  }

  /** A channel state is consistent with its curve: the index is a key of the curve (0
      for a curve without keys), and the constant flag is set exactly when the channel
      has stepped onto its current key, which has constant interpolation. */
  predicate Tracks(keys: seq<CurveKey>, s: ChannelState) {
    && 0 <= s.keyIndex
    && (s.keyIndex < |keys| || s.keyIndex == 0)
    && s.isConstant == (1 <= s.keyIndex < |keys| && keys[s.keyIndex].interpolation == Constant)
  }

  /** Key indices the loop can read: a key of the curve, or 0. */
  predicate ValidStates(cs: seq<AnimCurve>, states: seq<ChannelState>) {
    && |states| == |cs|
    && forall i :: 0 <= i < |cs| ==> 0 <= states[i].keyIndex && (states[i].keyIndex < |cs[i].keys| || states[i].keyIndex == 0)
  }

  predicate TracksAll(cs: seq<AnimCurve>, states: seq<ChannelState>) {
    && |states| == |cs|
    && forall i :: 0 <= i < |cs| ==> Tracks(cs[i].keys, states[i])
  }

  /** One channel of a sample step: the key advances; the value before the refresh is
      the held one when the channel now sits on a constant key and the evaluated one
      otherwise; after it, the evaluated one. */
  function ChannelStep(c: AnimCurve, state: ChannelState, held: real, time: int): (r: ChannelResult)
    ensures 0 <= state.keyIndex && (state.keyIndex < |c.keys| || state.keyIndex == 0) ==>
      0 <= r.state.keyIndex && (r.state.keyIndex < |c.keys| || r.state.keyIndex == 0)
  {
    var a := AdvanceKey(c.keys, state.keyIndex, state.isConstant, false, time);
    var v := c.evaluate(time);
    ChannelResult(ChannelState(a.keyIndex, a.isConstant), a.wasConstant, if a.isConstant then held else v, v)
  }

  function ChannelSteps(cs: seq<AnimCurve>, states: seq<ChannelState>, held: seq<real>, time: int): (rs: seq<ChannelResult>)
    requires |states| == |cs| && |held| == |cs|
    ensures |rs| == |cs|
  {
    seq(|cs|, i requires 0 <= i < |cs| => ChannelStep(cs[i], states[i], held[i], time))
  }

  /** One sample step of the whole group: a discontinuity when any channel has one. */
  function GroupStep(cs: seq<AnimCurve>, states: seq<ChannelState>, held: seq<real>, time: int): (s: Step)
    requires |states| == |cs| && |held| == |cs|
    ensures s.time == time && |s.states| == |cs| && |s.before| == |cs| && |s.after| == |cs|
  {
    var rs := ChannelSteps(cs, states, held, time);
    Step(time,
         seq(|rs|, i requires 0 <= i < |rs| => rs[i].state),
         exists i :: 0 <= i < |rs| && rs[i].discontinuity,
         seq(|rs|, i requires 0 <= i < |rs| => rs[i].before),
         seq(|rs|, i requires 0 <= i < |rs| => rs[i].after))
  }

  /** A sample step keeps every key index readable and ends on the curves evaluated at
      its time. */
  lemma GroupStepValid(cs: seq<AnimCurve>, states: seq<ChannelState>, held: seq<real>, time: int)
    requires |states| == |cs| && |held| == |cs|
    ensures ValidStates(cs, states) ==> ValidStates(cs, GroupStep(cs, states, held, time).states)
    ensures GroupStep(cs, states, held, time).after == EvalAll(Lift(cs), time)
  {
  }

  /** The steps at the given sample times, each starting from the channel states and
      values the previous one left. */
  function Trace(cs: seq<AnimCurve>, times: seq<int>, states: seq<ChannelState>, held: seq<real>): (tr: seq<Step>)
    requires |states| == |cs| && |held| == |cs|
    ensures |tr| == |times|
    decreases |times|
  {
    if |times| == 0 then []
    else
      var s := GroupStep(cs, states, held, times[0]);
      [s] + Trace(cs, times[1..], s.states, s.after)
  }

  /** Every channel starts on key 0, not constant. */
  function InitialStates(n: nat): (r: seq<ChannelState>)
    ensures |r| == n
  {
    seq(n, i => ChannelState(0, false))
  }

  /** The sample times over the group's span, one frame apart, the last clamped. */
  function ResampleTimes(cs: seq<AnimCurve>, oneFrame: int): seq<int>
    requires oneFrame > 0
  {
    SampleTimes(SpanOf(Lift(cs)).start, SpanOf(Lift(cs)).end, oneFrame)
  }

  /** The sample steps over those times, from the initial channel states and values. */
  function ResampleTrace(cs: seq<AnimCurve>, oneFrame: int): (tr: seq<Step>)
    requires oneFrame > 0
    ensures |tr| == |ResampleTimes(cs, oneFrame)|
  {
    Trace(cs, ResampleTimes(cs, oneFrame), InitialStates(|cs|), Zeros(|cs|))
  }

  /** The resampled keyframes of a curve group, or None when a curve is null or no
      curve has a key. */
  function Resample(curves: seq<Option<AnimCurve>>, oneFrame: int): Option<seq<KeyFrame>>
    requires oneFrame > 0
  {
    if !AllPresent(curves) then None
    else
      var span := SpanOf(curves);
      if span.start == TimeInfinite || span.end == TimeMinusInfinite then None
      else Some(Emit(ResampleTrace(Unwrap(curves), oneFrame)))
  }

  /** Resample reports no animation exactly when a curve is null or no curve has a key. */
  lemma ResampleNoneIff(curves: seq<Option<AnimCurve>>, oneFrame: int)
    requires oneFrame > 0 && FiniteKeyTimes(curves)
    ensures Resample(curves, oneFrame).None? <==> !AllPresent(curves) || NoKeys(curves)
  {
    SpanIsEarliestAndLatest(curves);
  }

  /** The key the advance loop stops on at time t: the first key after t, or the last
      key when none is after t (0 for a curve without keys). */
  function NextKey(keys: seq<CurveKey>, t: int): (j: int)
    ensures 0 <= j && (j < |keys| || j == 0)
  {
    if |keys| == 0 then 0
    else if LatestKey(keys, t) + 1 < |keys| then LatestKey(keys, t) + 1
    else |keys| - 1
  }

  /** Some key in [from, to) other than key 0 has constant interpolation: stepping
      over it marks a discontinuity. */
  predicate PassesConstantKey(keys: seq<CurveKey>, from: int, to: int) {
    exists m :: from <= m < to && 1 <= m < |keys| && keys[m].interpolation == Constant
  }

  /** A later sample time never moves NextKey backwards. */
  lemma NextKeyMonotonic(keys: seq<CurveKey>, t1: int, t2: int)
    requires t1 <= t2
    ensures NextKey(keys, t1) <= NextKey(keys, t2)
  {
    LatestKeyMonotonic(keys, t1, t2);
  }

  /** With time-ordered keys, the advance loop started from a consistent state at or
      before NextKey stops exactly there, consistent again, and reports a
      discontinuity exactly when it stepped over a constant key other than key 0. */
  lemma {:induction false} AdvanceKeyReachesNextKey(keys: seq<CurveKey>, index: int, isConstant: bool, discontinuity: bool, time: int)
    requires forall j, k :: 0 <= j <= k < |keys| ==> keys[j].time <= keys[k].time
    requires Tracks(keys, ChannelState(index, isConstant)) && index <= NextKey(keys, time)
    ensures AdvanceKey(keys, index, isConstant, discontinuity, time).keyIndex == NextKey(keys, time)
    ensures Tracks(keys, ChannelState(AdvanceKey(keys, index, isConstant, discontinuity, time).keyIndex,
                                      AdvanceKey(keys, index, isConstant, discontinuity, time).isConstant))
    ensures AdvanceKey(keys, index, isConstant, discontinuity, time).wasConstant
        == (discontinuity || PassesConstantKey(keys, index, NextKey(keys, time)))
    decreases |keys| - index
  {
    AdvanceStopsAtNextKey(keys, index, time);
    if 0 <= index && index + 1 < |keys| && keys[index].time <= time {
      AdvanceKeyReachesNextKey(keys, index + 1, keys[index + 1].interpolation == Constant, discontinuity || isConstant, time);
      PassesFrom(keys, index, isConstant, NextKey(keys, time));
    }
  }

  /** One turn of the advance loop from a key at or before NextKey: it steps exactly
      when NextKey is further on. */
  lemma AdvanceStopsAtNextKey(keys: seq<CurveKey>, index: int, time: int)
    requires forall j, k :: 0 <= j <= k < |keys| ==> keys[j].time <= keys[k].time
    requires 0 <= index && (index < |keys| || index == 0) && index <= NextKey(keys, time)
    ensures index + 1 < |keys| && keys[index].time <= time ==> index + 1 <= NextKey(keys, time)
    ensures !(index + 1 < |keys| && keys[index].time <= time) ==> index == NextKey(keys, time)
  {
  }

  /** Stepping off the current key passes a constant key exactly when the current key
      counts as constant or a later key before `next` does. */
  lemma PassesFrom(keys: seq<CurveKey>, index: int, isConstant: bool, next: int)
    requires Tracks(keys, ChannelState(index, isConstant)) && index < next
    ensures PassesConstantKey(keys, index, next) == (isConstant || PassesConstantKey(keys, index + 1, next))
  {
    if PassesConstantKey(keys, index, next) && !isConstant {
      var m :| index <= m < next && 1 <= m < |keys| && keys[m].interpolation == Constant;
      assert m != index;
    }
  }

  /** A channel settled at time t: on NextKey, constant exactly when that key is not
      key 0 and has constant interpolation. */
  function KeyState(keys: seq<CurveKey>, t: int): (s: ChannelState)
    ensures Tracks(keys, s)
  {
    var j := NextKey(keys, t);
    ChannelState(j, 1 <= j < |keys| && keys[j].interpolation == Constant)
  }

  /** One channel of a sample step, from a consistent state not past NextKey: it
      settles at the sample time, has a discontinuity exactly when it steps over a
      constant key other than key 0, and writes the held value before the refresh
      exactly when it now sits on a constant key. */
  lemma ChannelStepMeaning(c: AnimCurve, state: ChannelState, held: real, time: int)
    requires WellFormedCurve(c) && Tracks(c.keys, state) && state.keyIndex <= NextKey(c.keys, time)
    ensures ChannelStep(c, state, held, time).after == c.evaluate(time)
    ensures ChannelStep(c, state, held, time).state == KeyState(c.keys, time)
    ensures ChannelStep(c, state, held, time).discontinuity <==> PassesConstantKey(c.keys, state.keyIndex, NextKey(c.keys, time))
    ensures ChannelStep(c, state, held, time).before == if KeyState(c.keys, time).isConstant then held else c.evaluate(time)
  {
    AdvanceKeyReachesNextKey(c.keys, state.keyIndex, state.isConstant, false, time);
  }

  /** Every channel settled at time t. */
  function Settled(cs: seq<AnimCurve>, t: int): (r: seq<ChannelState>)
    ensures |r| == |cs|
  {
    seq(|cs|, i requires 0 <= i < |cs| => KeyState(cs[i].keys, t))
  }

  /** No channel is past NextKey at `time`. */
  predicate Behind(cs: seq<AnimCurve>, states: seq<ChannelState>, time: int)
    requires |states| == |cs|
  {
    forall i :: 0 <= i < |cs| ==> states[i].keyIndex <= NextKey(cs[i].keys, time)
  }

  /** What a sample step at time `t` from channel states `ps` and held values `ph`
      means: it is stamped `t`; the values written last are the curves evaluated at
      `t`; every channel is settled at `t`; the step is a discontinuity exactly when
      some channel steps over a constant key other than key 0; and the values written
      first are the held ones on the channels now on a constant key and the new ones
      elsewhere. */
  predicate StepMeaning(cs: seq<AnimCurve>, ps: seq<ChannelState>, ph: seq<real>, t: int, step: Step)
    requires |ps| == |cs| && |ph| == |cs|
  {
    && step.time == t
    && step.after == EvalAll(Lift(cs), t)
    && |step.before| == |cs|
    && step.states == Settled(cs, t)
    && (step.discontinuity <==> exists i :: 0 <= i < |cs| && PassesConstantKey(cs[i].keys, ps[i].keyIndex, NextKey(cs[i].keys, t)))
    && (forall i :: 0 <= i < |cs| ==>
          step.before[i] == if KeyState(cs[i].keys, t).isConstant then ph[i] else step.after[i])
  }

  /** A whole sample step from consistent states not past NextKey means what
      StepMeaning states. */
  lemma GroupStepMeaning(cs: seq<AnimCurve>, states: seq<ChannelState>, held: seq<real>, time: int)
    requires WellFormedAll(cs) && TracksAll(cs, states) && |held| == |cs|
    requires Behind(cs, states, time)
    ensures StepMeaning(cs, states, held, time, GroupStep(cs, states, held, time))
  {
    var rs := ChannelSteps(cs, states, held, time);
    var s := GroupStep(cs, states, held, time);
    forall i | 0 <= i < |cs|
      ensures rs[i].after == EvalAll(Lift(cs), time)[i]
      ensures rs[i].state == KeyState(cs[i].keys, time)
      ensures rs[i].discontinuity <==> PassesConstantKey(cs[i].keys, states[i].keyIndex, NextKey(cs[i].keys, time))
      ensures rs[i].before == if KeyState(cs[i].keys, time).isConstant then held[i] else rs[i].after
    {
      assert Lift(cs)[i] == Some(cs[i]);
      ChannelStepMeaning(cs[i], states[i], held[i], time);
    }
    GroupStepValid(cs, states, held, time);
    assert s.states == Settled(cs, time);
  }

  /** A step from consistent states not past NextKey leaves every channel settled at
      its time. */
  lemma GroupStepSettles(cs: seq<AnimCurve>, states: seq<ChannelState>, held: seq<real>, time: int)
    requires WellFormedAll(cs) && TracksAll(cs, states) && |held| == |cs|
    requires Behind(cs, states, time)
    ensures GroupStep(cs, states, held, time).states == Settled(cs, time)
  {
    GroupStepMeaning(cs, states, held, time);
  }

  /** Settled states are consistent, and not past NextKey at any later time. */
  lemma SettledBehind(cs: seq<AnimCurve>, t: int, later: int)
    requires t <= later
    ensures TracksAll(cs, Settled(cs, t)) && Behind(cs, Settled(cs, t), later)
  {
    forall i | 0 <= i < |cs|
      ensures Settled(cs, t)[i].keyIndex <= NextKey(cs[i].keys, later)
    {
      NextKeyMonotonic(cs[i].keys, t, later);
    }
  }

  /** The initial channel states are consistent and behind every time. */
  lemma InitialBehind(cs: seq<AnimCurve>, t: int)
    ensures TracksAll(cs, InitialStates(|cs|)) && Behind(cs, InitialStates(|cs|), t)
  {
  }

  /** The previous step's states and values, or the initial ones for the first step. */
  function PriorStates(tr: seq<Step>, states: seq<ChannelState>, k: nat): seq<ChannelState>
    requires k < |tr|
  {
    if k == 0 then states else tr[k - 1].states
  }

  function PriorValues(tr: seq<Step>, held: seq<real>, k: nat): seq<real>
    requires k < |tr|
  {
    if k == 0 then held else tr[k - 1].after
  }

  /** Step k > 0 of a trace, and the states and values before it, are step k - 1 of the
      trace that starts after the first step, and the states and values before that. */
  lemma TraceShift(cs: seq<AnimCurve>, times: seq<int>, states: seq<ChannelState>, held: seq<real>, k: nat)
    requires |states| == |cs| && |held| == |cs| && 0 < k < |times|
    ensures var s := GroupStep(cs, states, held, times[0]);
      var tr, tail := Trace(cs, times, states, held), Trace(cs, times[1..], s.states, s.after);
      && times[k] == times[1..][k - 1]
      && tr[k] == tail[k - 1]
      && PriorStates(tr, states, k) == PriorStates(tail, s.states, k - 1)
      && PriorValues(tr, held, k) == PriorValues(tail, s.after, k - 1)
  {
    var s := GroupStep(cs, states, held, times[0]);
    assert Trace(cs, times, states, held) == [s] + Trace(cs, times[1..], s.states, s.after);
  }

  /** Step k of a trace is the group step from the states and values the step before
      it left. */
  lemma {:induction false} TraceAt(cs: seq<AnimCurve>, times: seq<int>, states: seq<ChannelState>, held: seq<real>, k: nat)
    requires |states| == |cs| && |held| == |cs| && k < |times|
    ensures |PriorStates(Trace(cs, times, states, held), states, k)| == |cs|
    ensures |PriorValues(Trace(cs, times, states, held), held, k)| == |cs|
    ensures Trace(cs, times, states, held)[k]
         == GroupStep(cs, PriorStates(Trace(cs, times, states, held), states, k), PriorValues(Trace(cs, times, states, held), held, k), times[k])
    decreases k
  {
    if k > 0 {
      var s := GroupStep(cs, states, held, times[0]);
      TraceAt(cs, times[1..], s.states, s.after, k - 1);
      TraceShift(cs, times, states, held, k);
    }
  }

  /** Over increasing sample times from consistent states not past the first time's
      NextKey, step k leaves every channel settled at its time. */
  lemma {:induction false} TraceSettledAt(cs: seq<AnimCurve>, times: seq<int>, states: seq<ChannelState>, held: seq<real>, k: nat)
    requires WellFormedAll(cs) && TracksAll(cs, states) && |held| == |cs|
    requires StrictlyIncreasing(times) && k < |times| && Behind(cs, states, times[0])
    ensures Trace(cs, times, states, held)[k].states == Settled(cs, times[k])
    decreases k
  {
    var s := GroupStep(cs, states, held, times[0]);
    GroupStepSettles(cs, states, held, times[0]);
    if k > 0 {
      var rest := times[1..];
      assert StrictlyIncreasing(rest);
      SettledBehind(cs, times[0], rest[0]);
      TraceSettledAt(cs, rest, s.states, s.after, k - 1);
      TraceShift(cs, times, states, held, k);
    }
  }

  /** Every step of a trace is stamped with its sample time and ends on the curves
      evaluated there. */
  lemma {:induction false} TraceSamples(cs: seq<AnimCurve>, times: seq<int>, states: seq<ChannelState>, held: seq<real>)
    requires |states| == |cs| && |held| == |cs|
    ensures forall k :: 0 <= k < |times| ==>
      Trace(cs, times, states, held)[k].time == times[k] && Trace(cs, times, states, held)[k].after == EvalAll(Lift(cs), times[k])
    decreases |times|
  {
    if |times| > 0 {
      var s := GroupStep(cs, states, held, times[0]);
      GroupStepValid(cs, states, held, times[0]);
      TraceSamples(cs, times[1..], s.states, s.after);
      assert Trace(cs, times, states, held) == [s] + Trace(cs, times[1..], s.states, s.after);
    }
  }

  /** The key a channel sat on before sample step k: key 0 before the first step, else
      NextKey at the previous sample time. */
  function PriorKey(c: AnimCurve, times: seq<int>, k: nat): int
    requires k < |times|
  {
    if k == 0 then 0 else NextKey(c.keys, times[k - 1])
  }

  /** The values held before step k: zero before the first step, else the curves
      evaluated at the previous sample time. */
  function PriorSample(cs: seq<AnimCurve>, times: seq<int>, k: nat): (r: seq<real>)
    requires k < |times|
    ensures |r| == |cs|
  {
    if k == 0 then Zeros(|cs|) else EvalAll(Lift(cs), times[k - 1])
  }

  /** What sample step k over `times` from the initial state does: it is stamped with
      its sample time; the values written last are the curves evaluated at that time;
      the step is a discontinuity exactly when some channel steps, between the previous
      sample time and this one, over a constant key other than key 0; and the values
      written first hold the previous sample's values (0 at the first sample) on the
      channels now on a constant key, and the new ones elsewhere. */
  predicate FollowsKeys(cs: seq<AnimCurve>, times: seq<int>, k: nat, step: Step)
    requires k < |times|
  {
    && step.time == times[k]
    && step.after == EvalAll(Lift(cs), times[k])
    && |step.before| == |cs|
    && (step.discontinuity <==>
          exists i :: 0 <= i < |cs| && PassesConstantKey(cs[i].keys, PriorKey(cs[i], times, k), NextKey(cs[i].keys, times[k])))
    && forall i :: 0 <= i < |cs| ==>
         step.before[i] == if KeyState(cs[i].keys, times[k]).isConstant then PriorSample(cs, times, k)[i] else step.after[i]
  }

  /** A step that means what StepMeaning states, from channels on their prior keys and
      holding the prior sample, follows the curves' keys. */
  lemma MeaningFollowsKeys(cs: seq<AnimCurve>, times: seq<int>, k: nat, ps: seq<ChannelState>, step: Step)
    requires k < |times| && |ps| == |cs|
    requires forall i :: 0 <= i < |cs| ==> ps[i].keyIndex == PriorKey(cs[i], times, k)
    requires StepMeaning(cs, ps, PriorSample(cs, times, k), times[k], step)
    ensures FollowsKeys(cs, times, k, step)
  {
  }

  /** Before step k of a trace from the initial state, the channels are consistent,
      not past NextKey at times[k], and on their prior keys. */
  lemma PriorStatesAt(cs: seq<AnimCurve>, times: seq<int>, k: nat)
    requires WellFormedAll(cs) && StrictlyIncreasing(times) && k < |times|
    ensures var ps := PriorStates(Trace(cs, times, InitialStates(|cs|), Zeros(|cs|)), InitialStates(|cs|), k);
      && TracksAll(cs, ps) && Behind(cs, ps, times[k])
      && (forall i :: 0 <= i < |cs| ==> ps[i].keyIndex == PriorKey(cs[i], times, k))
  {
    if k == 0 {
      InitialBehind(cs, times[0]);
    } else {
      PriorAt(cs, times, k);
      SettledBehind(cs, times[k - 1], times[k]);
    }
  }

  /** Before step k > 0 of a trace from the initial state, every channel is settled at
      the previous sample time. */
  lemma PriorAt(cs: seq<AnimCurve>, times: seq<int>, k: nat)
    requires WellFormedAll(cs) && StrictlyIncreasing(times) && 0 < k < |times|
    ensures Trace(cs, times, InitialStates(|cs|), Zeros(|cs|))[k - 1].states == Settled(cs, times[k - 1])
  {
    InitialBehind(cs, times[0]);
    SettledFromStart(cs, times, k);
  }

  lemma SettledFromStart(cs: seq<AnimCurve>, times: seq<int>, k: nat)
    requires WellFormedAll(cs) && StrictlyIncreasing(times) && 0 < k < |times|
    requires TracksAll(cs, InitialStates(|cs|)) && Behind(cs, InitialStates(|cs|), times[0])
    ensures Trace(cs, times, InitialStates(|cs|), Zeros(|cs|))[k - 1].states == Settled(cs, times[k - 1])
  {
    TraceSettledAt(cs, times, InitialStates(|cs|), Zeros(|cs|), k - 1);
  }

  /** The values before step k of a trace from the initial state are the prior sample. */
  lemma PriorValuesAt(cs: seq<AnimCurve>, times: seq<int>, k: nat)
    requires k < |times|
    ensures PriorValues(Trace(cs, times, InitialStates(|cs|), Zeros(|cs|)), Zeros(|cs|), k) == PriorSample(cs, times, k)
  {
    TraceSamples(cs, times, InitialStates(|cs|), Zeros(|cs|));
  }

  /** Step k of a trace from the initial state follows the curves' keys. */
  lemma FollowsKeysAtStep(cs: seq<AnimCurve>, times: seq<int>, k: nat)
    requires WellFormedAll(cs) && StrictlyIncreasing(times) && k < |times|
    ensures FollowsKeys(cs, times, k, Trace(cs, times, InitialStates(|cs|), Zeros(|cs|))[k])
  {
    var n := |cs|;
    var init, zeros := InitialStates(n), Zeros(n);
    var tr := Trace(cs, times, init, zeros);
    TraceAt(cs, times, init, zeros, k);
    PriorStatesAt(cs, times, k);
    PriorValuesAt(cs, times, k);
    var ps := PriorStates(tr, init, k);
    GroupStepMeaning(cs, ps, PriorSample(cs, times, k), times[k]);
    MeaningFollowsKeys(cs, times, k, ps, tr[k]);
  }

  /** The resampler's behaviour step by step: for a group with no null curve and some
      key, Resample is the keyframes of the trace over the sample times from the
      initial state, and every step of that trace follows the curves' keys as
      FollowsKeys states. */
  lemma ResampleFollowsKeys(curves: seq<Option<AnimCurve>>, oneFrame: int)
    requires oneFrame > 0 && WellFormedCurves(curves) && AllPresent(curves) && !NoKeys(curves)
    ensures Resample(curves, oneFrame) == Some(Emit(ResampleTrace(Unwrap(curves), oneFrame)))
    ensures forall k :: 0 <= k < |ResampleTrace(Unwrap(curves), oneFrame)| ==>
      FollowsKeys(Unwrap(curves), ResampleTimes(Unwrap(curves), oneFrame), k, ResampleTrace(Unwrap(curves), oneFrame)[k])
  {
    var cs := Unwrap(curves);
    LiftUnwrap(curves);
    UnwrapWellFormed(curves);
    assert FiniteKeyTimes(curves);
    SpanIsEarliestAndLatest(curves);
    SampleTimesIncrease(SpanOf(curves).start, SpanOf(curves).end, oneFrame);
    var times := ResampleTimes(cs, oneFrame);
    var tr := ResampleTrace(cs, oneFrame);
    forall k | 0 <= k < |tr|
      ensures FollowsKeys(cs, times, k, tr[k])
    {
      FollowsKeysAtStep(cs, times, k);
    }
  }

  /** The shape of the resampled curve for a group with no null curve and some key:
      keyframes in time order from the earliest first key time to the latest last key
      time, one per sample step plus three per discontinuity, and each step's last
      keyframe holds the curves evaluated at its sample time. */
  lemma ResampleShape(curves: seq<Option<AnimCurve>>, oneFrame: int)
    requires oneFrame > 0 && WellFormedCurves(curves) && AllPresent(curves) && !NoKeys(curves)
    ensures Resample(curves, oneFrame) == Some(Emit(ResampleTrace(Unwrap(curves), oneFrame)))
    ensures KeyFrameTimesOrdered(Emit(ResampleTrace(Unwrap(curves), oneFrame)))
    ensures |Emit(ResampleTrace(Unwrap(curves), oneFrame))| > 0
    ensures Emit(ResampleTrace(Unwrap(curves), oneFrame))[0].time == SpanOf(curves).start
    ensures Last(Emit(ResampleTrace(Unwrap(curves), oneFrame))).time == SpanOf(curves).end
    ensures |Emit(ResampleTrace(Unwrap(curves), oneFrame))|
         == |ResampleTimes(Unwrap(curves), oneFrame)| + 3 * DiscontinuityCount(ResampleTrace(Unwrap(curves), oneFrame))
    ensures forall k :: 0 <= k < |ResampleTimes(Unwrap(curves), oneFrame)| ==>
      && 0 <= BlockEnd(ResampleTrace(Unwrap(curves), oneFrame), k) < |Emit(ResampleTrace(Unwrap(curves), oneFrame))|
      && Emit(ResampleTrace(Unwrap(curves), oneFrame))[BlockEnd(ResampleTrace(Unwrap(curves), oneFrame), k)]
         == KeyFrame(ResampleTimes(Unwrap(curves), oneFrame)[k], EvalAll(curves, ResampleTimes(Unwrap(curves), oneFrame)[k]))
  {
    var cs := Unwrap(curves);
    LiftUnwrap(curves);
    assert FiniteKeyTimes(curves);
    SpanIsEarliestAndLatest(curves);
    SpanOrdered(curves);
    var times := ResampleTimes(cs, oneFrame);
    SampleTimesShape(SpanOf(curves).start, SpanOf(curves).end, oneFrame);
    SampleTimesIncrease(SpanOf(curves).start, SpanOf(curves).end, oneFrame);
    TraceSamples(cs, times, InitialStates(|cs|), Zeros(|cs|));
    EmitFollowsSamples(curves, times, ResampleTrace(cs, oneFrame));
  }

  /** ProcessAnimationCurveFloatsHelper: the keyframes of the first `numCurves` curves,
      resampled at one key per frame, or None when one of them is null or none has a
      key. */
  method ProcessAnimationCurveFloatsHelper(curves: seq<Option<AnimCurve>>, numCurves: nat, oneFrame: int)
    returns (keyFrames: Option<seq<KeyFrame>>)
    requires numCurves <= 4 && numCurves <= |curves|
    requires oneFrame > 0
    ensures keyFrames == Resample(curves[..numCurves], oneFrame)
  {
    var group := curves[..numCurves];
    var allPresent, startTime, endTime := CurvesTimeSpan(group);
    if !allPresent {
      return None;
    }
    if startTime == TimeInfinite || endTime == TimeMinusInfinite {
      // No animation
      return None;
    }
    var cs := Unwrap(group);
    LiftUnwrap(group);
    var frames := SampleCurves(cs, startTime, endTime, oneFrame);
    RemainingIsEmitTrace(cs, SampleTimes(startTime, endTime, oneFrame), InitialStates(|cs|), Zeros(|cs|));
    return Some(frames);
  }

  /** The first loop: a null curve ends the helper; otherwise the earliest first key
      time and the latest last key time over the curves with keys. */
  method CurvesTimeSpan(curves: seq<Option<AnimCurve>>) returns (allPresent: bool, startTime: int, endTime: int)
    ensures allPresent <==> AllPresent(curves)
    ensures allPresent ==> Span(startTime, endTime) == SpanOf(curves)
  {
    startTime, endTime := TimeInfinite, TimeMinusInfinite;
    for i := 0 to |curves|
      invariant AllPresent(curves[..i])
      invariant Span(startTime, endTime) == SpanOf(curves[..i])
    {
      SpanOfSnoc(curves, i);
      var curve := curves[i];
      // If one of the expected channels is null, the group is skipped
      if curve.None? {
        return false, startTime, endTime;
      }
      if |curve.value.keys| > 0 {
        var firstKeyTime := curve.value.keys[0].time;
        var lastKeyTime := curve.value.keys[|curve.value.keys| - 1].time;
        if startTime > firstKeyTime {
          startTime := firstKeyTime;
        }
        if endTime < lastKeyTime {
          endTime := lastKeyTime;
        }
      }
      assert AllPresent(curves[..i + 1]) by {
        assert forall j :: 0 <= j < i ==> curves[..i + 1][j] == curves[..i][j];
      }
    }
    assert curves[..|curves|] == curves;
    allPresent := true;
  }

  /** The sampling loop: each frame from the start time, plus a last frame clamped to
      the end time, appends the keyframes of one sample step. */
  method SampleCurves(cs: seq<AnimCurve>, startTime: int, endTime: int, oneFrame: int)
    returns (frames: seq<KeyFrame>)
    requires oneFrame > 0
    ensures frames == Remaining(cs, SampleTimes(startTime, endTime, oneFrame), InitialStates(|cs|), Zeros(|cs|))
  {
    var currentKeyIndices, isConstant, values := InitialChannels(|cs|);
    ghost var expected := Remaining(cs, SampleTimes(startTime, endTime, oneFrame), InitialStates(|cs|), Zeros(|cs|));
    frames := [];
    var time := startTime;
    var lastFrame := false;
    while time < endTime || !lastFrame
      invariant lastFrame ==> time > endTime
      invariant ValidStates(cs, StatesOf(currentKeyIndices[..], isConstant[..]))
      invariant frames + Remaining(cs, Pending(time, endTime, oneFrame, lastFrame), StatesOf(currentKeyIndices[..], isConstant[..]), values[..]) == expected
      decreases |Pending(time, endTime, oneFrame, lastFrame)|
    {
      var block;
      ghost var before := Remaining(cs, Pending(time, endTime, oneFrame, lastFrame), StatesOf(currentKeyIndices[..], isConstant[..]), values[..]);
      block, time, lastFrame := SampleFrame(cs, currentKeyIndices, isConstant, values, time, endTime, oneFrame, lastFrame);
      assert (frames + block) + Remaining(cs, Pending(time, endTime, oneFrame, lastFrame), StatesOf(currentKeyIndices[..], isConstant[..]), values[..])
          == frames + before;
      frames := frames + block;
    }
  }

  /** The keyframes still to be appended for the given sample times, from the given
      channel states and held values. */
  ghost function Remaining(cs: seq<AnimCurve>, times: seq<int>, states: seq<ChannelState>, held: seq<real>): seq<KeyFrame>
    decreases |times|
  {
    if |times| == 0 || |states| != |cs| || |held| != |cs| then []
    else
      var s := GroupStep(cs, states, held, times[0]);
      Block(s) + Remaining(cs, times[1..], s.states, s.after)
  }

  /** The keyframes still to be appended are those of the trace over the remaining times. */
  lemma {:induction false} RemainingIsEmitTrace(cs: seq<AnimCurve>, times: seq<int>, states: seq<ChannelState>, held: seq<real>)
    requires |states| == |cs| && |held| == |cs|
    ensures Remaining(cs, times, states, held) == Emit(Trace(cs, times, states, held))
    decreases |times|
  {
    if |times| > 0 {
      var s := GroupStep(cs, states, held, times[0]);
      RemainingIsEmitTrace(cs, times[1..], s.states, s.after);
      EmitCons(s, Trace(cs, times[1..], s.states, s.after));
    }
  }

  /** One turn of the sampling loop: the last frame is clamped to the end time, one
      sample step is taken, and time moves on by a frame. */
  method SampleFrame(cs: seq<AnimCurve>, currentKeyIndices: array<int>, isConstant: array<bool>, values: array<real>,
                     time: int, endTime: int, oneFrame: int, lastFrame: bool)
    returns (block: seq<KeyFrame>, nextTime: int, nextLastFrame: bool)
    requires currentKeyIndices.Length == |cs| && isConstant.Length == |cs| && values.Length == |cs|
    requires ValidStates(cs, StatesOf(currentKeyIndices[..], isConstant[..]))
    requires oneFrame > 0 && (time < endTime || !lastFrame) && (lastFrame ==> time > endTime)
    modifies currentKeyIndices, isConstant, values
    ensures nextLastFrame ==> nextTime > endTime
    ensures ValidStates(cs, StatesOf(currentKeyIndices[..], isConstant[..]))
    ensures |Pending(nextTime, endTime, oneFrame, nextLastFrame)| < |Pending(time, endTime, oneFrame, lastFrame)|
    ensures old(Remaining(cs, Pending(time, endTime, oneFrame, lastFrame), StatesOf(currentKeyIndices[..], isConstant[..]), values[..]))
         == block + Remaining(cs, Pending(nextTime, endTime, oneFrame, nextLastFrame), StatesOf(currentKeyIndices[..], isConstant[..]), values[..])
  {
    ghost var rest := Pending(time, endTime, oneFrame, lastFrame);
    PendingStep(time, endTime, oneFrame, lastFrame);
    nextTime, nextLastFrame := time, lastFrame;
    // Last frame with time = endTime
    if nextTime >= endTime {
      nextLastFrame := true;
      nextTime := endTime;
    }
    block := SampleStep(cs, currentKeyIndices, isConstant, values, nextTime, rest);
    nextTime := nextTime + oneFrame;
  }

  /** The channel arrays at the start: every key index 0, no constant flag, and the
      zero-initialised key value. */
  method InitialChannels(numCurves: nat) returns (currentKeyIndices: array<int>, isConstant: array<bool>, values: array<real>)
    ensures fresh(currentKeyIndices) && fresh(isConstant) && fresh(values)
    ensures currentKeyIndices.Length == numCurves && isConstant.Length == numCurves && values.Length == numCurves
    ensures StatesOf(currentKeyIndices[..], isConstant[..]) == InitialStates(numCurves)
    ensures values[..] == Zeros(numCurves)
  {
    currentKeyIndices := new int[numCurves];
    isConstant := new bool[numCurves];
    for i := 0 to numCurves
      invariant forall j :: 0 <= j < i ==> currentKeyIndices[j] == 0 && !isConstant[j]
    {
      currentKeyIndices[i] := 0;
      isConstant[i] := false;
    }
    values := new real[numCurves](_ => 0.0);
    assert StatesOf(currentKeyIndices[..], isConstant[..]) == InitialStates(numCurves);
    assert values[..] == Zeros(numCurves);
  }

  /** The body of one turn of the sampling loop on the channel arrays, as one step of
      the remaining keyframes. */
  method SampleStep(cs: seq<AnimCurve>, currentKeyIndices: array<int>, isConstant: array<bool>, values: array<real>, time: int,
                    ghost times: seq<int>)
    returns (block: seq<KeyFrame>)
    requires currentKeyIndices.Length == |cs| && isConstant.Length == |cs| && values.Length == |cs|
    requires ValidStates(cs, StatesOf(currentKeyIndices[..], isConstant[..]))
    requires |times| > 0 && times[0] == time
    modifies currentKeyIndices, isConstant, values
    ensures ValidStates(cs, StatesOf(currentKeyIndices[..], isConstant[..]))
    ensures old(Remaining(cs, times, StatesOf(currentKeyIndices[..], isConstant[..]), values[..]))
         == block + Remaining(cs, times[1..], StatesOf(currentKeyIndices[..], isConstant[..]), values[..])
  {
    GroupStepValid(cs, StatesOf(currentKeyIndices[..], isConstant[..]), values[..], time);
    block := StepArrays(cs, currentKeyIndices, isConstant, values, time);
  }

  /** One sample step on the channel arrays: advance every channel's key, write the
      values, and return the step's keyframes (four at a discontinuity, else one). */
  method StepArrays(cs: seq<AnimCurve>, currentKeyIndices: array<int>, isConstant: array<bool>, values: array<real>, time: int)
    returns (block: seq<KeyFrame>)
    requires currentKeyIndices.Length == |cs| && isConstant.Length == |cs| && values.Length == |cs|
    requires ValidStates(cs, StatesOf(currentKeyIndices[..], isConstant[..]))
    modifies currentKeyIndices, isConstant, values
    ensures var s := GroupStep(cs, old(StatesOf(currentKeyIndices[..], isConstant[..])), old(values[..]), time);
      && block == Block(s)
      && StatesOf(currentKeyIndices[..], isConstant[..]) == s.states
      && values[..] == s.after
  {
    ghost var s := GroupStep(cs, StatesOf(currentKeyIndices[..], isConstant[..]), values[..], time);
    ghost var rs := ChannelSteps(cs, StatesOf(currentKeyIndices[..], isConstant[..]), values[..], time);
    var hasDiscontinuity := AdvanceChannels(cs, currentKeyIndices, isConstant, values, time, rs);
    assert StatesOf(currentKeyIndices[..], isConstant[..]) == s.states;
    assert values[..] == s.before;
    assert hasDiscontinuity == s.discontinuity;

    // At a discontinuity the previous values go in twice, then the new values twice
    block := [];
    if hasDiscontinuity {
      block := [KeyFrame(time, values[..]), KeyFrame(time, values[..])];
    }
    UpdateConstantValues(cs, isConstant, values, time);
    assert values[..] == s.after;

    block := block + [KeyFrame(time, values[..])];
    if hasDiscontinuity {
      block := block + [KeyFrame(time, values[..])];
    }
  }

  /** The first loop of a sample step: each channel advances its key and, unless it now
      sits on a constant key, writes its evaluated value. */
  method AdvanceChannels(cs: seq<AnimCurve>, currentKeyIndices: array<int>, isConstant: array<bool>, values: array<real>, time: int,
                         ghost rs: seq<ChannelResult>)
    returns (hasDiscontinuity: bool)
    requires currentKeyIndices.Length == |cs| && isConstant.Length == |cs| && values.Length == |cs|
    requires ValidStates(cs, StatesOf(currentKeyIndices[..], isConstant[..]))
    requires rs == ChannelSteps(cs, StatesOf(currentKeyIndices[..], isConstant[..]), values[..], time)
    modifies currentKeyIndices, isConstant, values
    ensures forall j :: 0 <= j < |cs| ==>
      && ChannelState(currentKeyIndices[j], isConstant[j]) == rs[j].state
      && values[j] == rs[j].before
    ensures hasDiscontinuity <==> exists j :: 0 <= j < |cs| && rs[j].discontinuity
  {
    hasDiscontinuity := false;
    for i := 0 to |cs|
      invariant forall j :: 0 <= j < i ==>
        && ChannelState(currentKeyIndices[j], isConstant[j]) == rs[j].state
        && values[j] == rs[j].before
      invariant forall j :: i <= j < |cs| ==>
        && currentKeyIndices[j] == old(currentKeyIndices[j])
        && isConstant[j] == old(isConstant[j])
        && values[j] == old(values[j])
      invariant hasDiscontinuity <==> exists j :: 0 <= j < i && rs[j].discontinuity
    {
      var discontinuity := StepChannel(cs[i], i, currentKeyIndices, isConstant, values, time);
      hasDiscontinuity := hasDiscontinuity || discontinuity;
    }
  }

  /** Channel i of the first loop: advance the key, then write the evaluated value
      unless the channel now sits on a constant key. */
  method StepChannel(c: AnimCurve, i: nat, currentKeyIndices: array<int>, isConstant: array<bool>, values: array<real>, time: int)
    returns (discontinuity: bool)
    requires i < currentKeyIndices.Length == isConstant.Length == values.Length
    requires 0 <= currentKeyIndices[i] && (currentKeyIndices[i] < |c.keys| || currentKeyIndices[i] == 0)
    modifies currentKeyIndices, isConstant, values
    ensures ChannelState(currentKeyIndices[i], isConstant[i])
         == ChannelStep(c, ChannelState(old(currentKeyIndices[i]), old(isConstant[i])), old(values[i]), time).state
    ensures values[i] == ChannelStep(c, ChannelState(old(currentKeyIndices[i]), old(isConstant[i])), old(values[i]), time).before
    ensures discontinuity == ChannelStep(c, ChannelState(old(currentKeyIndices[i]), old(isConstant[i])), old(values[i]), time).discontinuity
    ensures forall j :: 0 <= j < values.Length && j != i ==>
      currentKeyIndices[j] == old(currentKeyIndices[j]) && isConstant[j] == old(isConstant[j]) && values[j] == old(values[j])
  {
    var currentIndex, constant;
    currentIndex, constant, discontinuity := AdvanceChannel(c.keys, currentKeyIndices[i], isConstant[i], time);
    currentKeyIndices[i] := currentIndex;
    isConstant[i] := constant;
    // Update non-constant values
    if !isConstant[i] {
      values[i] := c.evaluate(time);
    }
  }

  /** The second loop of a sample step: each channel on a constant key writes its
      evaluated value; the others already have. */
  method UpdateConstantValues(cs: seq<AnimCurve>, isConstant: array<bool>, values: array<real>, time: int)
    requires isConstant.Length == |cs| && values.Length == |cs|
    modifies values
    ensures forall j :: 0 <= j < |cs| ==>
      values[j] == if isConstant[j] then EvalAll(Lift(cs), time)[j] else old(values[j])
  {
    for i := 0 to |cs|
      invariant forall j :: 0 <= j < i ==>
        values[j] == if isConstant[j] then EvalAll(Lift(cs), time)[j] else old(values[j])
      invariant forall j :: i <= j < |cs| ==> values[j] == old(values[j])
    {
      if isConstant[i] {
        values[i] := cs[i].evaluate(time);
      }
    }
  }

  /** The key-advance loop of one channel, from its current key index and constant flag;
      the key count is checked before the key time is read. */
  method AdvanceChannel(keys: seq<CurveKey>, index: int, isConstant: bool, time: int)
    returns (currentIndex: int, constant: bool, discontinuity: bool)
    requires 0 <= index && (index < |keys| || index == 0)
    ensures Advance(currentIndex, constant, discontinuity) == AdvanceKey(keys, index, isConstant, false, time)
  {
    currentIndex, constant := index, isConstant;
    discontinuity := false;
    // Advance to appropriate key that should be active during this frame. The source
    // tests the key time first and the count second. Both operands are free of side
    // effects, so on a curve with keys the swapped order gives the same loop; on a
    // curve without keys it does not read a key that does not exist.
    while currentIndex + 1 < |keys| && keys[currentIndex].time <= time
      invariant 0 <= currentIndex && (currentIndex < |keys| || currentIndex == 0)
      invariant AdvanceKey(keys, currentIndex, constant, discontinuity, time) == AdvanceKey(keys, index, isConstant, false, time)
      decreases |keys| - currentIndex
    {
      currentIndex := currentIndex + 1;
      // If new key over constant, there is a discontinuity
      var wasConstant := constant;
      discontinuity := discontinuity || wasConstant;
      constant := keys[currentIndex].interpolation == Constant;
    }
  }
}
