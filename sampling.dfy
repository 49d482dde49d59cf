/** What the two curve resamplers share: the combined time span of a curve group,
    the fixed-rate sample times over it, and how the outcome of each sample step
    becomes keyframes (one, or four around a discontinuity). */
module Sampling {
  import opened Wrappers
  import opened Fbx

  /** The last element of a non-empty sequence. */
  function Last<T>(s: seq<T>): T
    requires |s| > 0
  {
    s[|s| - 1]
  }

  /** KeyFrameData<T>: a time and the T value as its float components. */
  datatype KeyFrame = KeyFrame(time: int, value: seq<real>)

  /** The loop's start and end time; they keep the sentinel values while no curve
      with keys has been seen. */
  datatype Span = Span(start: int, end: int)

  const EmptySpan := Span(TimeInfinite, TimeMinusInfinite)

  function FirstKeyTime(c: AnimCurve): int
    requires |c.keys| > 0
  {
    c.keys[0].time
  }

  function LastKeyTime(c: AnimCurve): int
    requires |c.keys| > 0
  {
    c.keys[|c.keys| - 1].time
  }

  /** One turn of the span loop: a curve with keys lowers the start to its first key
      time and raises the end to its last key time; null and empty curves are skipped. */
  function Widen(span: Span, c: Option<AnimCurve>): Span {
    if HasKeys(c) then
      Span(if span.start > FirstKeyTime(c.value) then FirstKeyTime(c.value) else span.start,
           if span.end < LastKeyTime(c.value) then LastKeyTime(c.value) else span.end)
    else span
  }

  /** The span of a group of curves, folded in index order. */
  function SpanOf(curves: seq<Option<AnimCurve>>): Span {
    if |curves| == 0 then EmptySpan else Widen(SpanOf(curves[..|curves| - 1]), curves[|curves| - 1])
  }

  lemma SpanOfSnoc(curves: seq<Option<AnimCurve>>, i: nat)
    requires i < |curves|
    ensures SpanOf(curves[..i + 1]) == Widen(SpanOf(curves[..i]), curves[i])
  {
    assert curves[..i + 1][..i] == curves[..i];
  }

  predicate NoKeys(curves: seq<Option<AnimCurve>>) {
    forall i :: 0 <= i < |curves| ==> !HasKeys(curves[i])
  }

  predicate FiniteKeyTimes(curves: seq<Option<AnimCurve>>) {
    forall i, k :: 0 <= i < |curves| && curves[i].Some? && 0 <= k < |curves[i].value.keys| ==>
      IsFiniteTime(curves[i].value.keys[k].time)
  }

  /** The span is the earliest first key time and the latest last key time over the
      curves with keys, and the sentinels exactly when no curve has a key. */
  lemma {:induction false} SpanIsEarliestAndLatest(curves: seq<Option<AnimCurve>>)
    requires FiniteKeyTimes(curves)
    ensures NoKeys(curves) <==> SpanOf(curves).start == TimeInfinite || SpanOf(curves).end == TimeMinusInfinite
    ensures NoKeys(curves) ==> SpanOf(curves) == EmptySpan
    ensures forall i :: 0 <= i < |curves| && HasKeys(curves[i]) ==>
      SpanOf(curves).start <= FirstKeyTime(curves[i].value) && LastKeyTime(curves[i].value) <= SpanOf(curves).end
    ensures !NoKeys(curves) ==>
      exists i :: 0 <= i < |curves| && HasKeys(curves[i]) && SpanOf(curves).start == FirstKeyTime(curves[i].value)
    ensures !NoKeys(curves) ==>
      exists i :: 0 <= i < |curves| && HasKeys(curves[i]) && SpanOf(curves).end == LastKeyTime(curves[i].value)
  {
    if |curves| > 0 {
      var n := |curves| - 1;
      var init := curves[..n];
      assert FiniteKeyTimes(init) by {
        forall i, k | 0 <= i < |init| && init[i].Some? && 0 <= k < |init[i].value.keys|
          ensures IsFiniteTime(init[i].value.keys[k].time)
        {
          assert init[i] == curves[i];
        }
      }
      SpanIsEarliestAndLatest(init);
      var sp0 := SpanOf(init);
      var sp := SpanOf(curves);
      assert sp == Widen(sp0, curves[n]);
      assert forall i :: 0 <= i < n ==> init[i] == curves[i];
      if HasKeys(curves[n]) {
        var c := curves[n].value;
        assert IsFiniteTime(FirstKeyTime(c)) && IsFiniteTime(LastKeyTime(c));
        assert !NoKeys(curves);
        if NoKeys(init) {
          assert sp.start == FirstKeyTime(c) && sp.end == LastKeyTime(c);
        } else {
          var a :| 0 <= a < n && HasKeys(init[a]) && sp0.start == FirstKeyTime(init[a].value);
          var b :| 0 <= b < n && HasKeys(init[b]) && sp0.end == LastKeyTime(init[b].value);
          assert IsFiniteTime(FirstKeyTime(init[a].value)) && IsFiniteTime(LastKeyTime(init[b].value));
          if sp.start != FirstKeyTime(c) {
            assert sp.start == FirstKeyTime(curves[a].value);
          }
          if sp.end != LastKeyTime(c) {
            assert sp.end == LastKeyTime(curves[b].value);
          }
        }
      } else {
        assert NoKeys(curves) == NoKeys(init);
        if !NoKeys(init) {
          var a :| 0 <= a < n && HasKeys(init[a]) && sp0.start == FirstKeyTime(init[a].value);
          var b :| 0 <= b < n && HasKeys(init[b]) && sp0.end == LastKeyTime(init[b].value);
          assert IsFiniteTime(FirstKeyTime(init[a].value)) && IsFiniteTime(LastKeyTime(init[b].value));
          assert sp.start == FirstKeyTime(curves[a].value);
          assert sp.end == LastKeyTime(curves[b].value);
        }
      }
    }
  }

  /** With time-ordered keys the span is never inverted. */
  lemma SpanOrdered(curves: seq<Option<AnimCurve>>)
    requires WellFormedCurves(curves)
    requires !NoKeys(curves)
    ensures SpanOf(curves).start <= SpanOf(curves).end
  {
    assert FiniteKeyTimes(curves);
    SpanIsEarliestAndLatest(curves);
    var i :| 0 <= i < |curves| && HasKeys(curves[i]);
    var c := curves[i].value;
    assert FirstKeyTime(c) <= LastKeyTime(c);
  }

  /** The sample times of the resampling loop from `time` on: one frame apart, and
      the step that reaches or overshoots `end` is clamped to `end` and is the last. */
  function SampleTimes(time: int, end: int, oneFrame: int): seq<int>
    requires oneFrame > 0
    decreases end - time
  {
    if time >= end then [end] else [time] + SampleTimes(time + oneFrame, end, oneFrame)
  }

  /** Sample times start at the span start (or at the end, for a span of no length),
      end exactly at `end`, stay before `end` until the last, and the last step is
      clamped: the time before it is within one frame of `end`. */
  lemma {:induction false} SampleTimesShape(time: int, end: int, oneFrame: int)
    requires oneFrame > 0
    ensures |SampleTimes(time, end, oneFrame)| >= 1
    ensures SampleTimes(time, end, oneFrame)[0] == (if time < end then time else end)
    ensures Last(SampleTimes(time, end, oneFrame)) == end
    ensures forall k :: 0 <= k < |SampleTimes(time, end, oneFrame)| - 1 ==> SampleTimes(time, end, oneFrame)[k] < end
    ensures |SampleTimes(time, end, oneFrame)| >= 2 ==>
      var beforeLast := SampleTimes(time, end, oneFrame)[|SampleTimes(time, end, oneFrame)| - 2];
      beforeLast < end <= beforeLast + oneFrame
    ensures time >= end <==> |SampleTimes(time, end, oneFrame)| == 1
    decreases end - time
  {
    if time < end {
      SampleTimesShape(time + oneFrame, end, oneFrame);
    }
  }

  /** The loop adds one frame to every sample time, the clamped last one included,
      and FbxTime is a signed 64-bit count: those additions all stay in range exactly
      when the end time is at most one frame below the largest time. */
  lemma SampleIncrementsFit(time: int, end: int, oneFrame: int)
    requires oneFrame > 0
    ensures (forall k :: 0 <= k < |SampleTimes(time, end, oneFrame)| ==> SampleTimes(time, end, oneFrame)[k] + oneFrame <= TimeInfinite)
      <==> end + oneFrame <= TimeInfinite
  {
    SampleTimesShape(time, end, oneFrame);
  }

  /** Every sample time before the clamped last one is a whole number of frames after
      the start: the k-th is `time + k * oneFrame`. */
  lemma {:induction false} SampleTimesSpacing(time: int, end: int, oneFrame: int)
    requires oneFrame > 0
    ensures forall k :: 0 <= k < |SampleTimes(time, end, oneFrame)| - 1 ==>
      SampleTimes(time, end, oneFrame)[k] == time + k * oneFrame
    decreases end - time
  {
    if time < end {
      SampleTimesSpacing(time + oneFrame, end, oneFrame);
      var ts, rest := SampleTimes(time, end, oneFrame), SampleTimes(time + oneFrame, end, oneFrame);
      assert ts == [time] + rest;
      forall k | 0 < k < |ts| - 1
        ensures ts[k] == time + k * oneFrame
      {
        var j := k - 1;
        assert rest[j] == time + oneFrame + j * oneFrame;
        assert j * oneFrame + oneFrame == k * oneFrame;
      }
    }
  }

  /** The sample times the resampling loop still has to take, given its time variable
      and its lastFrame flag: none once the last frame has been taken. */
  function Pending(time: int, end: int, oneFrame: int, lastFrame: bool): seq<int>
    requires oneFrame > 0
  {
    if lastFrame then [] else SampleTimes(time, end, oneFrame)
  }

  /** One turn of the loop `for (time = start; time < end || !lastFrame; time += oneFrame)`
      whose body first clamps a time at or past the end to the end and sets lastFrame:
      it samples the first pending time, and the rest remain pending afterwards. */
  lemma PendingStep(time: int, end: int, oneFrame: int, lastFrame: bool)
    requires oneFrame > 0
    requires time < end || !lastFrame
    requires lastFrame ==> time > end
    ensures |Pending(time, end, oneFrame, lastFrame)| > 0
    ensures Pending(time, end, oneFrame, lastFrame)[0] == (if time >= end then end else time)
    ensures Pending(time, end, oneFrame, lastFrame)[1..]
         == Pending((if time >= end then end else time) + oneFrame, end, oneFrame, time >= end)
    ensures time >= end ==> end + oneFrame > end
  {
  }

  /** Sample times strictly increase, so keyframe times never go backwards. */
  lemma {:induction false} SampleTimesIncrease(time: int, end: int, oneFrame: int)
    requires oneFrame > 0
    ensures StrictlyIncreasing(SampleTimes(time, end, oneFrame))
    decreases end - time
  {
    if time < end {
      SampleTimesIncrease(time + oneFrame, end, oneFrame);
      SampleTimesShape(time + oneFrame, end, oneFrame);
    }
  }

  /** The number of sample steps: one for a span of no length; otherwise n steps
      where n - 2 whole frames fall short of the span and n - 1 frames cover it. */
  lemma {:induction false} SampleTimesCount(time: int, end: int, oneFrame: int)
    requires oneFrame > 0
    ensures var n := |SampleTimes(time, end, oneFrame)|;
      && (time >= end ==> n == 1)
      && (time < end ==> (n - 2) * oneFrame < end - time <= (n - 1) * oneFrame)
    decreases end - time
  {
    if time < end {
      SampleTimesCount(time + oneFrame, end, oneFrame);
      var m := |SampleTimes(time + oneFrame, end, oneFrame)|;
      assert |SampleTimes(time, end, oneFrame)| == m + 1;
      if time + oneFrame < end {
        assert (m - 1) * oneFrame == (m - 2) * oneFrame + oneFrame;
        assert m * oneFrame == (m - 1) * oneFrame + oneFrame;
      } else {
        assert m == 1;
      }
    }
  }

  /** The sample values of a curve group at a time: each curve evaluated there, and 0
      for a null curve. */
  function EvalAll(curves: seq<Option<AnimCurve>>, t: int): (v: seq<real>)
    ensures |v| == |curves|
  {
    seq(|curves|, i requires 0 <= i < |curves| =>
      if curves[i].Some? then curves[i].value.evaluate(t) else 0.0)
  }

  /** The key buffer starts zero-initialised. */
  function Zeros(n: nat): (r: seq<real>)
    ensures |r| == n
  {
    seq(n, i => 0.0)
  }

  /** The index of the latest key at or before `t` (scanning from the last key), or
      -1 when every key is later. */
  function LatestKey(keys: seq<CurveKey>, t: int): (j: int)
    ensures -1 <= j < |keys|
    ensures j >= 0 ==> keys[j].time <= t
    ensures forall m :: j < m < |keys| ==> keys[m].time > t
  {
    if |keys| == 0 then -1
    else if keys[|keys| - 1].time <= t then |keys| - 1
    else LatestKey(keys[..|keys| - 1], t)
  }

  /** A later sample time never moves the latest key backwards. */
  lemma LatestKeyMonotonic(keys: seq<CurveKey>, t1: int, t2: int)
    requires t1 <= t2
    ensures LatestKey(keys, t1) <= LatestKey(keys, t2)
  {
  }

  predicate StrictlyIncreasing(times: seq<int>) {
    forall j, k :: 0 <= j < k < |times| ==> times[j] < times[k]
  }

  /** The state a resampler keeps per channel: its current key index and whether
      that key's interpolation is constant. */
  datatype ChannelState = ChannelState(keyIndex: int, isConstant: bool)

  /** The per-channel state held in the resampler's parallel arrays. */
  function StatesOf(keyIndices: seq<int>, isConstant: seq<bool>): (r: seq<ChannelState>)
    requires |keyIndices| == |isConstant|
    ensures |r| == |keyIndices|
  {
    seq(|keyIndices|, i requires 0 <= i < |keyIndices| => ChannelState(keyIndices[i], isConstant[i]))
  }

  /** Where a channel's key-advance loop stops: the key index reached, that key's
      constant flag, and the discontinuity flag the loop produced. */
  datatype Advance = Advance(keyIndex: int, isConstant: bool, wasConstant: bool)

  /** What one channel contributes to a sample step. */
  datatype ChannelResult = ChannelResult(state: ChannelState, discontinuity: bool, before: real, after: real)

  /** What one sample step of a resampler decided: the sample time, the channel
      states afterwards, whether the group has a discontinuity at this time, the
      values written before the constant channels are refreshed, and after. */
  datatype Step = Step(time: int, states: seq<ChannelState>, discontinuity: bool, before: seq<real>, after: seq<real>)

  /** The keyframes one step appends: at a discontinuity the previous values twice
      then the new values twice, all at the step's time; otherwise one keyframe. */
  function Block(s: Step): (b: seq<KeyFrame>) {
    if s.discontinuity then
      [KeyFrame(s.time, s.before), KeyFrame(s.time, s.before), KeyFrame(s.time, s.after), KeyFrame(s.time, s.after)]
    else
      [KeyFrame(s.time, s.after)]
  }

  /** A step block has four keyframes at a discontinuity, the first two equal and the
      last two equal, and one keyframe otherwise, all stamped with the step's time. */
  lemma BlockShape(s: Step)
    ensures |Block(s)| == (if s.discontinuity then 4 else 1)
    ensures forall k :: 0 <= k < |Block(s)| ==> Block(s)[k].time == s.time
    ensures Last(Block(s)) == KeyFrame(s.time, s.after)
    ensures s.discontinuity ==> Block(s)[0] == Block(s)[1] == KeyFrame(s.time, s.before) && Block(s)[2] == Block(s)[3]
  {
  }

  /** The keyframes of a sequence of steps, block after block. */
  function Emit(steps: seq<Step>): seq<KeyFrame> {
    if |steps| == 0 then [] else Block(steps[0]) + Emit(steps[1..])
  }

  function DiscontinuityCount(steps: seq<Step>): nat {
    if |steps| == 0 then 0 else (if steps[0].discontinuity then 1 else 0) + DiscontinuityCount(steps[1..])
  }

  lemma EmitCons(s: Step, steps: seq<Step>)
    ensures Emit([s] + steps) == Block(s) + Emit(steps)
  {
    assert ([s] + steps)[1..] == steps;
  }

  /** Every step contributes one keyframe, and three more when it is discontinuous. */
  lemma {:induction false} EmitLength(steps: seq<Step>)
    ensures |Emit(steps)| == |steps| + 3 * DiscontinuityCount(steps)
  {
    if |steps| > 0 {
      EmitLength(steps[1..]);
    }
  }

  predicate TimesIncreasing(steps: seq<Step>) {
    forall j, k :: 0 <= j < k < |steps| ==> steps[j].time < steps[k].time
  }

  predicate KeyFrameTimesOrdered(frames: seq<KeyFrame>) {
    forall j, k :: 0 <= j <= k < |frames| ==> frames[j].time <= frames[k].time
  }

  /** Every keyframe time lies between `lo` and `hi`. */
  predicate TimesWithin(frames: seq<KeyFrame>, lo: int, hi: int) {
    forall k :: 0 <= k < |frames| ==> lo <= frames[k].time <= hi
  }

  /** Two ordered runs of keyframes, the first ending no later than the second starts,
      make one ordered run. */
  lemma OrderedConcat(a: seq<KeyFrame>, b: seq<KeyFrame>, t: int)
    requires KeyFrameTimesOrdered(a) && KeyFrameTimesOrdered(b)
    requires forall k :: 0 <= k < |a| ==> a[k].time <= t
    requires forall k :: 0 <= k < |b| ==> t <= b[k].time
    ensures KeyFrameTimesOrdered(a + b)
  {
  }

  /** The keyframes of increasing steps are in time order, run from the first step's
      time to the last step's time, and are never empty when there is a step. */
  lemma {:induction false} EmitTimes(steps: seq<Step>)
    requires TimesIncreasing(steps)
    ensures KeyFrameTimesOrdered(Emit(steps))
    ensures |steps| > 0 ==> |Emit(steps)| > 0 && Emit(steps)[0].time == steps[0].time
    ensures |steps| > 0 ==> Last(Emit(steps)).time == Last(steps).time
    ensures |steps| > 0 ==> TimesWithin(Emit(steps), steps[0].time, Last(steps).time)
  {
    if |steps| > 0 {
      var rest := steps[1..];
      assert TimesIncreasing(rest);
      EmitTimes(rest);
      var b := Block(steps[0]);
      BlockShape(steps[0]);
      var e := Emit(steps);
      assert e == b + Emit(rest);
      if |rest| == 0 {
        assert e == b;
      } else {
        var t0, t1, tn := steps[0].time, rest[0].time, rest[|rest| - 1].time;
        assert t0 < t1 && tn == steps[|steps| - 1].time;
        OrderedConcat(b, Emit(rest), t0);
        assert TimesWithin(e, t0, tn) by {
          assert TimesWithin(b, t0, t0) && TimesWithin(Emit(rest), t1, tn);
        }
      }
    }
  }

  /** Where step k's block begins in the emitted keyframes: after the blocks of the
      steps before it. */
  function BlockOffset(steps: seq<Step>, k: nat): nat
    requires k <= |steps|
  {
    if k == 0 then 0 else |Block(steps[0])| + BlockOffset(steps[1..], k - 1)
  }

  /** Keyframe j of step k's block sits in the emitted keyframes at the block's offset
      plus j. */
  lemma {:induction false} EmitBlockAt(steps: seq<Step>, k: nat, j: nat)
    requires k < |steps| && j < |Block(steps[k])|
    ensures BlockOffset(steps, k) + j < |Emit(steps)|
    ensures Emit(steps)[BlockOffset(steps, k) + j] == Block(steps[k])[j]
  {
    var rest := steps[1..];
    assert Emit(steps) == Block(steps[0]) + Emit(rest);
    if k > 0 {
      assert rest[k - 1] == steps[k];
      EmitBlockAt(rest, k - 1, j);
    }
  }

  /** Where step k's block ends: the index of its last keyframe. */
  function BlockEnd(steps: seq<Step>, k: nat): int
    requires k < |steps|
  {
    BlockOffset(steps, k) + |Block(steps[k])| - 1
  }

  /** The last keyframe of step k's block is the step's time and its final values. */
  lemma BlockEndsAt(steps: seq<Step>, k: nat)
    requires k < |steps|
    ensures 0 <= BlockEnd(steps, k) < |Emit(steps)|
    ensures Emit(steps)[BlockEnd(steps, k)] == KeyFrame(steps[k].time, steps[k].after)
  {
    BlockShape(steps[k]);
    EmitBlockAt(steps, k, |Block(steps[k])| - 1);
  }

  /** The keyframes of steps taken at increasing sample times, each ending on the
      curves evaluated at its time: they are in time order from the first sample time
      to the last, one per step plus three per discontinuity, and each step's last
      keyframe is the curves' values at its sample time. */
  lemma EmitFollowsSamples(curves: seq<Option<AnimCurve>>, times: seq<int>, steps: seq<Step>)
    requires |steps| == |times| > 0 && StrictlyIncreasing(times)
    requires forall k :: 0 <= k < |steps| ==> steps[k].time == times[k] && steps[k].after == EvalAll(curves, times[k])
    ensures KeyFrameTimesOrdered(Emit(steps))
    ensures |Emit(steps)| > 0 && Emit(steps)[0].time == times[0] && Last(Emit(steps)).time == Last(times)
    ensures |Emit(steps)| == |times| + 3 * DiscontinuityCount(steps)
    ensures forall k :: 0 <= k < |times| ==>
      0 <= BlockEnd(steps, k) < |Emit(steps)| && Emit(steps)[BlockEnd(steps, k)] == KeyFrame(times[k], EvalAll(curves, times[k]))
  {
    assert TimesIncreasing(steps);
    EmitTimes(steps);
    EmitLength(steps);
    forall k | 0 <= k < |times|
      ensures 0 <= BlockEnd(steps, k) < |Emit(steps)| && Emit(steps)[BlockEnd(steps, k)] == KeyFrame(times[k], EvalAll(curves, times[k]))
    {
      BlockEndsAt(steps, k);
    }
  }
}
