/** The engine-side animation objects the importers fill (AnimationCurve<T>,
    AnimationClip) and the per-keyframe channel rewrites that both importers define
    identically (ConvertDegreeToRadians, ReverseChannelZ, MultiplyChannel). */
module Animations {
  import opened Wrappers
  import opened Fbx
  import opened Sampling

  /** System.Math.PI. */
  const MathPi: real := 3.141592653589793

  /** The factor (float)Math::PI / 180.0f that turns degrees into radians. */
  const DegreesToRadians: real := MathPi / 180.0

  /** AnimationCurveInterpolationType. */
  datatype CurveInterpolation = ConstantCurve | LinearCurve | CubicCurve

  /** Rewrites every keyframe's value with `f`, keeping its time. */
  function MapValues(frames: seq<KeyFrame>, f: seq<real> -> seq<real>): (r: seq<KeyFrame>)
    ensures |r| == |frames|
    ensures forall i :: 0 <= i < |r| ==> r[i].time == frames[i].time
  {
    seq(|frames|, i requires 0 <= i < |frames| => KeyFrame(frames[i].time, f(frames[i].value)))
  }

  /** Multiplies every component of a value by a factor. */
  function Scale(factor: real): seq<real> -> seq<real> {
    v => seq(|v|, j requires 0 <= j < |v| => factor * v[j])
  }

  /** Negates the Z component of a Vector3 value. */
  function NegateZ(v: seq<real>): (r: seq<real>)
    ensures |r| == |v|
    ensures |v| == 3 ==> r[0] == v[0] && r[1] == v[1] && r[2] == -v[2]
  {
    if |v| == 3 then [v[0], v[1], -v[2]] else v
  }

  /** AnimationCurve<T>: its interpolation type and its keyframe list. */
  class AnimationCurve {
    var interpolationType: CurveInterpolation
    var keyFrames: seq<KeyFrame>

    constructor ()
      ensures interpolationType == LinearCurve && keyFrames == []
    {
      interpolationType := LinearCurve;
      keyFrames := [];
    }
  }

  datatype NamedCurve = NamedCurve(name: string, curve: AnimationCurve)

  /** The value a curve of a clip holds: its name and its keyframes. */
  datatype CurveValue = CurveValue(name: string, keyFrames: seq<KeyFrame>)

  /** AnimationClip: its curves in the order they were added, and its Duration. */
  class AnimationClip {
    var curves: seq<NamedCurve>
    var duration: int

    constructor ()
      ensures curves == [] && duration == 0
    {
      curves := [];
      duration := 0;
    }

    ghost function CurveObjects(): set<AnimationCurve>
      reads this
    {
      set i | 0 <= i < |curves| :: curves[i].curve
    }

    /** The names and keyframes of the clip's curves. */
    ghost function Contents(): (r: seq<CurveValue>)
      reads this, CurveObjects()
      ensures |r| == |curves|
      ensures forall i :: 0 <= i < |curves| ==> r[i] == CurveValue(curves[i].name, curves[i].curve.keyFrames)
    {
      seq(|curves|, i requires 0 <= i < |curves| reads this, CurveObjects() =>
        CurveValue(curves[i].name, curves[i].curve.keyFrames))
    }

    /** The clip as a value: its curves and its Duration. */
    ghost function Value(): ClipValue
      reads this, CurveObjects()
    {
      ClipValue(Contents(), duration)
    }

    /** No curve object is added twice, so rewriting one leaves the others alone. */
    ghost predicate Distinct()
      reads this
    {
      forall i, j :: 0 <= i < j < |curves| ==> curves[i].curve != curves[j].curve
    }

    /** AddCurve(name, curve); its code is not part of this model, so the curve is
        appended under its name and nothing else changes. */
    method AddCurve(name: string, curve: AnimationCurve)
      modifies this
      ensures curves == old(curves) + [NamedCurve(name, curve)]
      ensures duration == old(duration)
      ensures Contents() == old(Contents()) + [CurveValue(name, curve.keyFrames)]
      ensures old(Distinct()) && curve !in old(CurveObjects()) ==> Distinct()
    {
      curves := curves + [NamedCurve(name, curve)];
    }
  }

  /** The value an AnimationClip holds: its curves and its Duration. */
  datatype ClipValue = ClipValue(curves: seq<CurveValue>, duration: int)

  /** Concatenation regrouped, stated once so that callers need not prove it by
      extensionality. */
  lemma AppendAssociative<T>(a: seq<T>, b: seq<T>, c: seq<T>)
    ensures a + b + c == a + (b + c)
  {
  }

  /** Duration after curves are added one by one, each raising Duration to its last
      keyframe time when that is later. */
  function DurationAfter(duration: int, added: seq<CurveValue>): int {
    if |added| == 0 then duration
    else
      var frames := added[|added| - 1].keyFrames;
      var d := DurationAfter(duration, added[..|added| - 1]);
      if |frames| > 0 && d < frames[|frames| - 1].time then frames[|frames| - 1].time else d
  }

  /** Duration ends as the maximum of its initial value and of the last keyframe
      times of the curves added. */
  lemma {:induction false} DurationIsLatestEnd(duration: int, added: seq<CurveValue>)
    ensures duration <= DurationAfter(duration, added)
    ensures forall i :: 0 <= i < |added| && |added[i].keyFrames| > 0 ==> Last(added[i].keyFrames).time <= DurationAfter(duration, added)
    ensures || DurationAfter(duration, added) == duration
            || exists i :: 0 <= i < |added| && |added[i].keyFrames| > 0 && DurationAfter(duration, added) == Last(added[i].keyFrames).time
  {
    if |added| > 0 {
      var init := added[..|added| - 1];
      DurationIsLatestEnd(duration, init);
      assert forall i :: 0 <= i < |init| ==> init[i] == added[i];
    }
  }

  /** Adding two lists of curves one after the other. */
  lemma {:induction false} DurationAfterConcat(duration: int, a: seq<CurveValue>, b: seq<CurveValue>)
    ensures DurationAfter(duration, a + b) == DurationAfter(DurationAfter(duration, a), b)
    decreases |b|
  {
    if |b| == 0 {
      assert a + b == a;
    } else {
      DurationAfterConcat(duration, a, b[..|b| - 1]);
      assert (a + b)[..|a + b| - 1] == a + b[..|b| - 1];
    }
  }

  /** Two lists of curves whose curves pairwise have the same number of keyframes and
      the same last keyframe time. */
  predicate SameEnds(a: seq<CurveValue>, b: seq<CurveValue>) {
    && |a| == |b|
    && forall i :: 0 <= i < |a| ==>
      && |a[i].keyFrames| == |b[i].keyFrames|
      && (|a[i].keyFrames| > 0 ==> Last(a[i].keyFrames).time == Last(b[i].keyFrames).time)
  }

  /** Duration only depends on the last keyframe time of each added curve, so
      rewriting values leaves it unchanged. */
  lemma {:induction false} DurationSameEnds(duration: int, a: seq<CurveValue>, b: seq<CurveValue>)
    requires SameEnds(a, b)
    ensures DurationAfter(duration, a) == DurationAfter(duration, b)
  {
    if |a| > 0 {
      DurationSameEnds(duration, a[..|a| - 1], b[..|b| - 1]);
    }
  }

  lemma SameEndsRefl(a: seq<CurveValue>)
    ensures SameEnds(a, a)
  {
  }

  lemma SameEndsConcat(a: seq<CurveValue>, b: seq<CurveValue>, c: seq<CurveValue>, d: seq<CurveValue>)
    requires SameEnds(a, b) && SameEnds(c, d)
    ensures SameEnds(a + c, b + d)
  {
    assert forall i :: 0 <= i < |a| ==> (a + c)[i] == a[i] && (b + d)[i] == b[i];
    assert forall i :: |a| <= i < |a + c| ==> (a + c)[i] == c[i - |a|] && (b + d)[i] == d[i - |a|];
  }

  /** A resampled channel under a name; none when the resampler reported no
      animation. */
  function Plain(name: string, frames: Option<seq<KeyFrame>>): seq<CurveValue> {
    if frames.None? then [] else [CurveValue(name, frames.value)]
  }

  /** A channel's keyframes with their values rewritten, when there is a channel. */
  function MapFrames(frames: Option<seq<KeyFrame>>, f: seq<real> -> seq<real>): Option<seq<KeyFrame>> {
    if frames.None? then None else Some(MapValues(frames.value, f))
  }

  /** A resampled channel whose values are then rewritten in place by `f`. */
  function Mapped(name: string, frames: Option<seq<KeyFrame>>, f: seq<real> -> seq<real>): seq<CurveValue> {
    if frames.None? then [] else [CurveValue(name, MapValues(frames.value, f))]
  }

  /** Rewriting a channel's values keeps its keyframe count and last time, so the
      Duration it gives. */
  lemma MappedSameEnds(name: string, frames: Option<seq<KeyFrame>>, f: seq<real> -> seq<real>)
    ensures SameEnds(Plain(name, frames), Mapped(name, frames, f))
  {
  }

  /** Rewriting the values of one curve keeps the ends of all. */
  lemma RewriteSameEnds(cs: seq<CurveValue>, k: nat, f: seq<real> -> seq<real>)
    requires k < |cs|
    ensures SameEnds(cs, cs[k := CurveValue(cs[k].name, MapValues(cs[k].keyFrames, f))])
  {
  }

  /** ConvertDegreeToRadians: every value is multiplied by PI / 180. */
  method ConvertDegreeToRadians(channel: AnimationCurve)
    modifies channel
    ensures channel.keyFrames == MapValues(old(channel.keyFrames), Scale(DegreesToRadians))
    ensures channel.interpolationType == old(channel.interpolationType)
  {
    RewriteValues(channel, Scale(DegreesToRadians));
  }

  /** ReverseChannelZ: the Z component of every Vector3 value is negated. */
  method ReverseChannelZ(channel: AnimationCurve)
    modifies channel
    ensures channel.keyFrames == MapValues(old(channel.keyFrames), NegateZ)
    ensures channel.interpolationType == old(channel.interpolationType)
  {
    RewriteValues(channel, NegateZ);
  }

  /** MultiplyChannel: every value is multiplied by the factor. */
  method MultiplyChannel(channel: AnimationCurve, factor: real)
    modifies channel
    ensures channel.keyFrames == MapValues(old(channel.keyFrames), Scale(factor))
    ensures channel.interpolationType == old(channel.interpolationType)
  {
    RewriteValues(channel, Scale(factor));
  }

  /** The loop the channel rewrites share: read KeyFrames[i], rewrite its value, and
      store it back at the same index. */
  method RewriteValues(channel: AnimationCurve, f: seq<real> -> seq<real>)
    modifies channel
    ensures channel.keyFrames == MapValues(old(channel.keyFrames), f)
    ensures channel.interpolationType == old(channel.interpolationType)
  {
    ghost var original := channel.keyFrames;
    for i := 0 to |channel.keyFrames|
      invariant |channel.keyFrames| == |original|
      invariant forall j :: 0 <= j < i ==> channel.keyFrames[j] == KeyFrame(original[j].time, f(original[j].value))
      invariant forall j :: i <= j < |original| ==> channel.keyFrames[j] == original[j]
      invariant channel.interpolationType == old(channel.interpolationType)
    {
      var keyFrame := channel.keyFrames[i];
      keyFrame := keyFrame.(value := f(keyFrame.value));
      channel.keyFrames := channel.keyFrames[i := keyFrame];
    }
  }

  /** The key-copy loop of ProcessAnimationCurveVector and CreateCurve: each
      keyframe is appended in order. */
  method AddKeyFrames(curve: AnimationCurve, frames: seq<KeyFrame>)
    modifies curve
    ensures curve.keyFrames == old(curve.keyFrames) + frames
    ensures curve.interpolationType == old(curve.interpolationType)
  {
    for i := 0 to |frames|
      invariant curve.keyFrames == old(curve.keyFrames) + frames[..i]
      invariant curve.interpolationType == old(curve.interpolationType)
    {
      assert frames[..i + 1] == frames[..i] + [frames[i]];
      curve.keyFrames := curve.keyFrames + [frames[i]];
    }
    assert frames[..|frames|] == frames;
  }

  /** The first loop of ProcessAnimationCurveRotation: every Euler angle is
      multiplied by PI / 180, keyframe by keyframe, in place. */
  method DegreesToRadiansFrames(euler: seq<KeyFrame>) returns (frames: seq<KeyFrame>)
    ensures frames == MapValues(euler, Scale(DegreesToRadians))
  {
    frames := euler;
    for i := 0 to |frames|
      invariant |frames| == |euler|
      invariant forall j :: 0 <= j < i ==> frames[j] == KeyFrame(euler[j].time, Scale(DegreesToRadians)(euler[j].value))
      invariant forall j :: i <= j < |frames| ==> frames[j] == euler[j]
    {
      var keyFrame := frames[i];
      keyFrame := keyFrame.(value := Scale(DegreesToRadians)(keyFrame.value));
      frames := frames[i := keyFrame];
    }
  }

  /** The second loop of ProcessAnimationCurveRotation: a new curve holding, for each
      keyframe in order, the quaternion of its angles at the same time. */
  method QuaternionCurve(frames: seq<KeyFrame>, toQuaternion: seq<real> -> seq<real>) returns (animationCurve: AnimationCurve)
    ensures fresh(animationCurve)
    ensures animationCurve.keyFrames == MapValues(frames, toQuaternion)
  {
    animationCurve := new AnimationCurve();
    for i := 0 to |frames|
      invariant |animationCurve.keyFrames| == i
      invariant forall j :: 0 <= j < i ==> animationCurve.keyFrames[j] == KeyFrame(frames[j].time, toQuaternion(frames[j].value))
    {
      var keyFrame := frames[i];
      animationCurve.keyFrames := animationCurve.keyFrames + [KeyFrame(keyFrame.time, toQuaternion(keyFrame.value))];
    }
  }

  /** The tail every curve-building helper shares: the curve is added to the clip,
      then Duration is raised to the curve's last keyframe time when that is later. */
  method AddCurveWithDuration(clip: AnimationClip, name: string, curve: AnimationCurve)
    modifies clip
    ensures clip.curves == old(clip.curves) + [NamedCurve(name, curve)]
    ensures clip.Contents() == old(clip.Contents()) + [CurveValue(name, curve.keyFrames)]
    ensures clip.duration == DurationAfter(old(clip.duration), [CurveValue(name, curve.keyFrames)])
    ensures old(clip.Distinct()) && curve !in old(clip.CurveObjects()) ==> clip.Distinct()
  {
    var keyFrames := curve.keyFrames;
    clip.AddCurve(name, curve);
    if |keyFrames| > 0 {
      var curveDuration := keyFrames[|keyFrames| - 1].time;
      if clip.duration < curveDuration {
        clip.duration := curveDuration;
      }
    }
    assert [CurveValue(name, keyFrames)][..0] == [];
  }

  /** A channel rewrite applied, when there is one, to the curve of one channel of
      a clip: its values are rewritten and the other curves keep theirs. */
  method RewriteCurveAt(clip: AnimationClip, curve: AnimationCurve?, f: seq<real> -> seq<real>,
                        ghost init: seq<CurveValue>, ghost name: string, ghost frames: Option<seq<KeyFrame>>,
                        ghost rest: seq<CurveValue>)
    requires clip.Distinct()
    requires curve == null <==> frames.None?
    requires curve != null ==> |init| < |clip.curves| && clip.curves[|init|].curve == curve
    requires clip.Contents() == init + Plain(name, frames) + rest
    modifies curve
    ensures clip.Contents() == init + Mapped(name, frames, f) + rest
  {
    if curve != null {
      RewriteValues(curve, f);
      var after := init + Mapped(name, frames, f) + rest;
      forall i | 0 <= i < |clip.curves|
        ensures clip.Contents()[i] == after[i]
      {
        if i != |init| {
          assert clip.curves[i].curve != curve;
          assert old(clip.Contents())[i] == (init + Plain(name, frames) + rest)[i];
        }
      }
    }
  }

  /** RewriteCurveAt on the first channel of a clip. */
  method RewriteFirstCurve(clip: AnimationClip, curve: AnimationCurve?, f: seq<real> -> seq<real>,
                           ghost name: string, ghost frames: Option<seq<KeyFrame>>, ghost rest: seq<CurveValue>)
    requires clip.Distinct()
    requires curve == null <==> frames.None?
    requires curve != null ==> 0 < |clip.curves| && clip.curves[0].curve == curve
    requires clip.Contents() == Plain(name, frames) + rest
    modifies curve
    ensures clip.Contents() == Mapped(name, frames, f) + rest
  {
    assert [] + Plain(name, frames) + rest == Plain(name, frames) + rest;
    RewriteCurveAt(clip, curve, f, [], name, frames, rest);
    assert [] + Mapped(name, frames, f) + rest == Mapped(name, frames, f) + rest;
  }

  /** RewriteCurveAt on the last channel of a clip. */
  method RewriteLastCurve(clip: AnimationClip, curve: AnimationCurve?, f: seq<real> -> seq<real>,
                          ghost init: seq<CurveValue>, ghost name: string, ghost frames: Option<seq<KeyFrame>>)
    requires clip.Distinct()
    requires curve == null <==> frames.None?
    requires curve != null ==> 0 < |clip.curves| && clip.curves[|clip.curves| - 1].curve == curve
    requires clip.Contents() == init + Plain(name, frames)
    modifies curve
    ensures clip.Contents() == init + Mapped(name, frames, f)
  {
    assert init + Plain(name, frames) + [] == init + Plain(name, frames);
    RewriteCurveAt(clip, curve, f, init, name, frames, []);
    assert init + Mapped(name, frames, f) + [] == init + Mapped(name, frames, f);
  }

  /** RewriteLastCurve, with the rewritten channel stated as a channel of its own, so
      that a second rewrite can follow. */
  method RewriteLastChannel(clip: AnimationClip, curve: AnimationCurve?, f: seq<real> -> seq<real>,
                            ghost init: seq<CurveValue>, ghost name: string, ghost frames: Option<seq<KeyFrame>>)
    requires clip.Distinct()
    requires curve == null <==> frames.None?
    requires curve != null ==> 0 < |clip.curves| && clip.curves[|clip.curves| - 1].curve == curve
    requires clip.Contents() == init + Plain(name, frames)
    modifies curve
    ensures clip.Contents() == init + Plain(name, MapFrames(frames, f))
  {
    RewriteLastCurve(clip, curve, f, init, name, frames);
    assert Mapped(name, frames, f) == Plain(name, MapFrames(frames, f));
  }
}
