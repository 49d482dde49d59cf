/** The Xenko AnimationConverter: it resamples the translation, rotation and scaling
    curves of every node, and the camera curves of camera nodes, into one
    AnimationClip per animated node, keyed by node name; it sets the pivot state of
    every node before the SDK bakes pivots into the curves; and it answers whether a
    scene has animation data and which nodes are animated. */
module XenkoConverter {
  import opened Wrappers
  import opened Fbx
  import opened Sampling
  import opened Animations
  import opened ImportCommon
  import XenkoResampler

  // ---------------------------------------------------------------------------
  // What a node's clip holds

  /** The quaternion keyframes built from resampled Euler angles in degrees: each
      angle is turned into radians, then the three are composed, at the same time. */
  function RotationFrames(frames: seq<KeyFrame>, n: Numerics): (r: seq<KeyFrame>)
    ensures |r| == |frames|
    ensures forall i :: 0 <= i < |r| ==>
      r[i] == KeyFrame(frames[i].time, n.adjustedEulerToQuaternion(Scale(DegreesToRadians)(frames[i].value)))
  {
    MapValues(MapValues(frames, Scale(DegreesToRadians)), n.adjustedEulerToQuaternion)
  }

  function Rotation(name: string, frames: Option<seq<KeyFrame>>, n: Numerics): seq<CurveValue> {
    if frames.None? then [] else [CurveValue(name, RotationFrames(frames.value, n))]
  }

  /** ComputeFovFromFL's value rewrite: the vertical field of view, in degrees, of a
      focal length on a film of the given height. */
  function FovFromFocalLength(filmHeight: real, n: Numerics): seq<real> -> seq<real> {
    v => seq(|v|, j requires 0 <= j < |v| => n.focalLengthToVerticalFov(filmHeight, v[j]) * 180.0 / MathPi)
  }

  /** The resampling ProcessAnimationCurveFloatsHelper performs: `resample` gives
      what the Xenko resampler gives at the frame length. The link is stated for
      the curve groups the resampler is applied to, so a proof about clips sees the
      resampled keyframes as values and only unfolds the resampler where it asks. */
  ghost predicate Resamples(resample: Resampler, oneFrame: int) {
    && oneFrame > 0
    && forall cs {:trigger XenkoResampler.Resample(cs, oneFrame)} :: resample(cs) == XenkoResampler.Resample(cs, oneFrame)
  }

  /** The Xenko resampler at a frame length, as a function of the curve group (no
      curve group is resampled at a frame length that is not positive). */
  function XenkoResampling(oneFrame: int): (r: Resampler)
    ensures oneFrame > 0 ==> Resamples(r, oneFrame)
  {
    cs => if oneFrame > 0 then XenkoResampler.Resample(cs, oneFrame) else None
  }

  /** The translation, rotation and scaling curves of a node: the translation values
      moved by the scene's matrix modifier, the scaling values by its rotation part. */
  function TransformCurves(c: LayerCurves, n: Numerics, resample: Resampler): seq<CurveValue> {
    Mapped("Transform.Position", resample(c.translation.AsSeq()), n.transformPoint)
    + Rotation("Transform.Rotation", resample(c.rotation.AsSeq()), n)
    + Mapped("Transform.Scale", resample(c.scaling.AsSeq()), n.transformNormal)
  }

  /** The transform channels as added, before the translation and scaling values
      are rewritten. */
  function ResampledTransformCurves(c: LayerCurves, n: Numerics, resample: Resampler): seq<CurveValue> {
    Position(c, resample) + Orientation(c, n, resample) + Dilation(c, resample)
  }

  function Position(c: LayerCurves, resample: Resampler): seq<CurveValue> {
    Plain("Transform.Position", resample(c.translation.AsSeq()))
  }

  function Orientation(c: LayerCurves, n: Numerics, resample: Resampler): seq<CurveValue> {
    Rotation("Transform.Rotation", resample(c.rotation.AsSeq()), n)
  }

  function Dilation(c: LayerCurves, resample: Resampler): seq<CurveValue> {
    Plain("Transform.Scale", resample(c.scaling.AsSeq()))
  }

  /** What the resampler gives for one camera curve: nothing when the camera has no
      such curve. */
  function ChannelFrames(x: Option<AnimCurve>, resample: Resampler): Option<seq<KeyFrame>> {
    if x.Some? then resample([x]) else None
  }

  /** The camera curves of a camera node, for each of FieldOfViewY, FocalLength,
      NearPlane and FarPlane that has a curve; a focal-length channel is turned into
      a field of view. A curve without keys gives no channel and is not converted. */
  function CameraCurves(c: LayerCurves, camera: Camera, n: Numerics, resample: Resampler): seq<CurveValue> {
    Plain("Camera.VerticalFieldOfView", ChannelFrames(c.fieldOfViewY, resample))
    + Mapped("Camera.VerticalFieldOfView", ChannelFrames(c.focalLength, resample), FovFromFocalLength(camera.filmHeight, n))
    + Plain("Camera.NearClipPlane", ChannelFrames(c.nearPlane, resample))
    + Plain("Camera.FarClipPlane", ChannelFrames(c.farPlane, resample))
  }

  /** The camera curves as the source computes them: ComputeFovFromFL runs on the
      focal-length channel without a null test, so a focal-length curve without keys
      fails with a null dereference. */
  function CameraCurvesAsWritten(c: LayerCurves, camera: Camera, n: Numerics, resample: Resampler): Result<seq<CurveValue>, ConverterError> {
    var fov := Plain("Camera.VerticalFieldOfView", ChannelFrames(c.fieldOfViewY, resample));
    var flAnimChannel := ChannelFrames(c.focalLength, resample);
    if c.focalLength.Some? && flAnimChannel.None? then Failure(NullReference)
    else
      var fl := if c.focalLength.Some? then [CurveValue("Camera.VerticalFieldOfView", MapValues(flAnimChannel.value, FovFromFocalLength(camera.filmHeight, n)))] else [];
      var near := Plain("Camera.NearClipPlane", ChannelFrames(c.nearPlane, resample));
      var far := Plain("Camera.FarClipPlane", ChannelFrames(c.farPlane, resample));
      Success(fov + fl + near + far)
  }

  /** The curves of a node's clip, in the order they are added. */
  function NodeCurves(c: LayerCurves, camera: Option<Camera>, n: Numerics, resample: Resampler): seq<CurveValue> {
    TransformCurves(c, n, resample) + (if camera.Some? then CameraCurves(c, camera.value, n, resample) else [])
  }

  datatype NamedClip = NamedClip(name: string, clip: ClipValue)

  /** The clip entry of one node: present only when the node's clip has a curve, and
      then with the Duration its curves give. */
  function NodeClip(layer: Option<LayerId>, node: Node, n: Numerics, resample: Resampler): (r: seq<NamedClip>)
    ensures |r| <= 1
  {
    var cs := NodeCurves(CurvesOf(node, layer), node.Camera(), n, resample);
    if |cs| > 0 then [NamedClip(node.name, ClipValue(cs, DurationAfter(0, cs)))] else []
  }

  /** The clip entries of a subtree's nodes in depth-first pre-order, through
      FlatMap: what ProcessAnimationByCurve adds to the dictionary. */
  function NodeClips(layer: Option<LayerId>, n: Numerics, resample: Resampler): Node -> seq<NamedClip> {
    node => NodeClip(layer, node, n, resample)
  }

  /** The entries are exactly the clips of the nodes whose clip has a curve. */
  lemma ClipsMeans(layer: Option<LayerId>, nodes: seq<Node>, n: Numerics, resample: Resampler)
    ensures forall e :: e in FlatMap(nodes, NodeClips(layer, n, resample)) <==>
      exists m :: m in nodes && NodeClip(layer, m, n, resample) == [e]
  {
    var f := NodeClips(layer, n, resample);
    assert forall m :: f(m) == NodeClip(layer, m, n, resample);
    FlatMapSingletons(nodes, f);
  }

  /** A node's clip is left out exactly when none of its curves gives keyframes, and
      a kept clip's Duration is the latest last keyframe time of its curves. */
  lemma NodeClipMeans(layer: Option<LayerId>, node: Node, n: Numerics, resample: Resampler)
    ensures NodeClip(layer, node, n, resample) == [] <==> |NodeCurves(CurvesOf(node, layer), node.Camera(), n, resample)| == 0
    ensures forall e :: e in NodeClip(layer, node, n, resample) ==>
      && e.name == node.name
      && e.clip.curves == NodeCurves(CurvesOf(node, layer), node.Camera(), n, resample)
      && 0 <= e.clip.duration
      && (forall i :: 0 <= i < |e.clip.curves| && |e.clip.curves[i].keyFrames| > 0 ==> Last(e.clip.curves[i].keyFrames).time <= e.clip.duration)
      && (e.clip.duration == 0 || exists i :: 0 <= i < |e.clip.curves| && |e.clip.curves[i].keyFrames| > 0 && e.clip.duration == Last(e.clip.curves[i].keyFrames).time)
  {
    DurationIsLatestEnd(0, NodeCurves(CurvesOf(node, layer), node.Camera(), n, resample));
  }

  /** The translation, rotation and scaling curves give no channel exactly when none
      of their curves has a key. */
  lemma TransformCurvesEmptyIff(c: LayerCurves, n: Numerics, resample: Resampler, oneFrame: int)
    requires Resamples(resample, oneFrame) && FiniteCurves(c)
    ensures |TransformCurves(c, n, resample)| == 0 <==>
      NoKeys(c.translation.AsSeq()) && NoKeys(c.rotation.AsSeq()) && NoKeys(c.scaling.AsSeq())
  {
    XenkoResampler.ResampleNoneIffNoKeys(c.translation.AsSeq(), oneFrame);
    XenkoResampler.ResampleNoneIffNoKeys(c.rotation.AsSeq(), oneFrame);
    XenkoResampler.ResampleNoneIffNoKeys(c.scaling.AsSeq(), oneFrame);
  }

  /** One camera curve gives no channel exactly when it has no key. */
  lemma SingleChannelNoneIff(x: Option<AnimCurve>, resample: Resampler, oneFrame: int)
    requires Resamples(resample, oneFrame) && FiniteKeyTimes([x])
    ensures ChannelFrames(x, resample).None? <==> !HasKeys(x)
  {
    XenkoResampler.ResampleNoneIffNoKeys([x], oneFrame);
    assert [x][0] == x;
  }

  /** The camera curves' key times are finite, and none has a key, curve by curve. */
  lemma CameraSeqParts(c: LayerCurves)
    requires FiniteCurves(c)
    ensures FiniteKeyTimes([c.fieldOfViewY]) && FiniteKeyTimes([c.focalLength])
    ensures FiniteKeyTimes([c.nearPlane]) && FiniteKeyTimes([c.farPlane])
    ensures NoKeys(CameraSeq(c)) <==>
      !HasKeys(c.fieldOfViewY) && !HasKeys(c.focalLength) && !HasKeys(c.nearPlane) && !HasKeys(c.farPlane)
  {
    var cs := CameraSeq(c);
    assert cs[0] == c.fieldOfViewY && cs[1] == c.focalLength && cs[2] == c.nearPlane && cs[3] == c.farPlane;
  }

  /** The camera curves give no channel exactly when none of the four camera curves
      has a key. */
  lemma CameraCurvesEmptyIff(c: LayerCurves, camera: Camera, n: Numerics, resample: Resampler, oneFrame: int)
    requires Resamples(resample, oneFrame) && FiniteCurves(c)
    ensures |CameraCurves(c, camera, n, resample)| == 0 <==> NoKeys(CameraSeq(c))
  {
    CameraSeqParts(c);
    SingleChannelNoneIff(c.fieldOfViewY, resample, oneFrame);
    SingleChannelNoneIff(c.focalLength, resample, oneFrame);
    SingleChannelNoneIff(c.nearPlane, resample, oneFrame);
    SingleChannelNoneIff(c.farPlane, resample, oneFrame);
  }

  /** A node's clip has no curve exactly when none of its transform curves has a
      key and, for a camera, none of its camera curves has one. */
  lemma NodeCurvesEmptyIff(c: LayerCurves, camera: Option<Camera>, n: Numerics, resample: Resampler, oneFrame: int)
    requires Resamples(resample, oneFrame) && FiniteCurves(c)
    ensures |NodeCurves(c, camera, n, resample)| == 0 <==>
      && NoKeys(c.translation.AsSeq()) && NoKeys(c.rotation.AsSeq()) && NoKeys(c.scaling.AsSeq())
      && (camera.Some? ==> NoKeys(CameraSeq(c)))
  {
    TransformCurvesEmptyIff(c, n, resample, oneFrame);
    if camera.Some? {
      CameraCurvesEmptyIff(c, camera.value, n, resample, oneFrame);
    }
  }

  // ---------------------------------------------------------------------------
  // The camera focal-length channel

  /** A camera whose focal-length curve exists but has no key. */
  const KeylessFocalLength := NoCurves.(focalLength := Some(AnimCurve([], t => 0.0)))

  /** The unguarded conversion fails exactly when a focal-length curve exists whose
      resampling gives no channel, and otherwise agrees with the guarded one. */
  lemma CameraCurvesGuardAgrees(c: LayerCurves, camera: Camera, n: Numerics, resample: Resampler)
    ensures CameraCurvesAsWritten(c, camera, n, resample).Failure?
        <==> c.focalLength.Some? && ChannelFrames(c.focalLength, resample).None?
    ensures CameraCurvesAsWritten(c, camera, n, resample).Success? ==>
      CameraCurvesAsWritten(c, camera, n, resample).value == CameraCurves(c, camera, n, resample)
  {
  }

  /** A focal-length curve without keys: the source dereferences the null channel,
      while the guarded conversion adds no channel for it. */
  lemma KeylessFocalLengthFails(camera: Camera, n: Numerics, resample: Resampler, oneFrame: int)
    requires Resamples(resample, oneFrame)
    ensures CameraCurvesAsWritten(KeylessFocalLength, camera, n, resample) == Failure(NullReference)
    ensures CameraCurves(KeylessFocalLength, camera, n, resample) == []
  {
    var none: seq<Option<AnimCurve>> := [None];
    XenkoResampler.ResampleNoneIffNoKeys([KeylessFocalLength.focalLength], oneFrame);
    XenkoResampler.ResampleNoneIffNoKeys(none, oneFrame);
  }

  // ---------------------------------------------------------------------------
  // HasAnimation

  /** HasAnimation: some component curve of translation, rotation or scaling exists. */
  predicate HasAnimation(layer: Option<LayerId>, node: Node) {
    var c := CurvesOf(node, layer);
    || c.translation.x.Some? || c.translation.y.Some? || c.translation.z.Some?
    || c.rotation.x.Some? || c.rotation.y.Some? || c.rotation.z.Some?
    || c.scaling.x.Some? || c.scaling.y.Some? || c.scaling.z.Some?
  }

  /** HasAnimation is the transform half of the test GetAnimationNodes applies: a node
      it accepts is listed, a node without a camera is listed exactly when it accepts
      it, and a node with a complete transform triple is accepted. */
  lemma HasAnimationIsListedTransform(layer: Option<LayerId>, node: Node)
    ensures HasAnimation(layer, node) ==> Listed(AnyComponent, layer, node)
    ensures node.Camera().None? ==> (Listed(AnyComponent, layer, node) <==> HasAnimation(layer, node))
    ensures CompleteTransform(CurvesOf(node, layer)) ==> HasAnimation(layer, node)
    ensures !HasAnimation(layer, node) ==> !OwnAnimationData(layer, node) || CameraAnimated(layer, node)
  {
  }

  // ---------------------------------------------------------------------------
  // SetPivotStateRecursive

  /** Skeleton nodes and FK/IK effector markers: the nodes pre-rotation applies to. */
  predicate BoneLike(node: Node) {
    || node.attribute == Skeleton
    || node.attribute == MarkerAttribute(EffectorFK)
    || node.attribute == MarkerAttribute(EffectorIK)
  }

  /** The pivot decision table for one node. Both pivot sets become active and the
      destination takes the source's rotation order. Cameras and lights without a
      target get their source post-rotation compensated (by 90 degrees about Y for a
      camera, about X for a light) and rotation made active; point lights lose their
      source post-rotation. Bone-like nodes get zero destination pivots and offsets,
      and the source pre-rotation when rotation is active; every other node gets a
      zero destination pre-rotation and the source's pivots and offsets. */
  function PivotDecision(node: Node, p: NodePivots, n: Numerics): NodePivots {
    var compensate := (node.Camera().Some? || node.IsLight()) && !node.hasTarget;
    var compensation := if node.Camera().Some? then Vec4(0.0, 90.0, 0.0, 1.0) else Vec4(90.0, 0.0, 0.0, 1.0);
    var postRotation :=
      if node.attribute == LightAttribute(PointLight) then Vec4(0.0, 0.0, 0.0, 0.0)
      else if compensate then n.composePostRotation(p.source.postRotation, compensation)
      else p.source.postRotation;
    var rotationActive := compensate || p.rotationActive;
    var source := p.source.(state := PivotActive, postRotation := postRotation);
    var destination :=
      if BoneLike(node) then
        p.destination.(
          state := PivotActive,
          rotationOrder := p.source.rotationOrder,
          preRotation := if rotationActive then p.source.preRotation else p.destination.preRotation,
          rotationPivot := ZeroPoint,
          scalingPivot := ZeroPoint,
          rotationOffset := ZeroPoint,
          scalingOffset := ZeroPoint)
      else
        p.destination.(
          state := PivotActive,
          rotationOrder := p.source.rotationOrder,
          preRotation := ZeroPoint,
          rotationPivot := p.source.rotationPivot,
          scalingPivot := p.source.scalingPivot,
          rotationOffset := p.source.rotationOffset,
          scalingOffset := p.source.scalingOffset);
    NodePivots(source, destination, rotationActive)
  }

  /** The decision as a rule over every node. */
  function SetPivotStateRule(n: Numerics): PivotRule {
    (node, p) => PivotDecision(node, p, n)
  }

  /** The decision table as the source promises it: both pivot sets become active and
      the destination takes the source rotation order; bone-like nodes get zero
      destination pivots and offsets and the source pre-rotation only when rotation is
      active; every other node gets a zero destination pre-rotation and the source's
      pivots and offsets; the source pre-rotation and pivots are never changed. */
  lemma PivotDecisionTable(node: Node, p: NodePivots, n: Numerics)
    ensures var r := PivotDecision(node, p, n);
      && r.source.state == PivotActive && r.destination.state == PivotActive
      && r.destination.rotationOrder == p.source.rotationOrder
      && r.source.preRotation == p.source.preRotation && r.source.rotationPivot == p.source.rotationPivot
      && (r.rotationActive <==> p.rotationActive || ((node.Camera().Some? || node.IsLight()) && !node.hasTarget))
      && (BoneLike(node) ==>
            && r.destination.rotationPivot == ZeroPoint && r.destination.scalingPivot == ZeroPoint
            && r.destination.rotationOffset == ZeroPoint && r.destination.scalingOffset == ZeroPoint
            && r.destination.preRotation == (if r.rotationActive then p.source.preRotation else p.destination.preRotation))
      && (!BoneLike(node) ==>
            && r.destination.preRotation == ZeroPoint
            && r.destination.rotationPivot == p.source.rotationPivot && r.destination.scalingPivot == p.source.scalingPivot
            && r.destination.rotationOffset == p.source.rotationOffset && r.destination.scalingOffset == p.source.scalingOffset)
      && (node.attribute == LightAttribute(PointLight) ==> r.source.postRotation == Vec4(0.0, 0.0, 0.0, 0.0))
      && (!node.Camera().Some? && !node.IsLight() ==> r.source.postRotation == p.source.postRotation)
  {
  }

  /** With distinct node ids, SetPivotStateRecursive gives every node of the tree
      the decision for its own original pivot data, and a node outside the tree keeps
      its pivot data. */
  lemma PivotDecisionsMeans(pivots: map<nat, NodePivots>, nodes: seq<Node>, n: Numerics)
    requires UniqueIds(nodes)
    ensures forall i :: 0 <= i < |nodes| && nodes[i].id in pivots ==>
      PivotsAfter(pivots, nodes, SetPivotStateRule(n))[nodes[i].id] == PivotDecision(nodes[i], pivots[nodes[i].id], n)
    ensures forall id :: id in pivots && (forall i :: 0 <= i < |nodes| ==> nodes[i].id != id) ==>
      PivotsAfter(pivots, nodes, SetPivotStateRule(n))[id] == pivots[id]
  {
    PivotsAfterEachNode(pivots, nodes, SetPivotStateRule(n));
  }

  /** Duration after the transform channels are added one at a time. */
  function StagedDuration(c: LayerCurves, n: Numerics, resample: Resampler): int {
    DurationAfter(DurationAfter(DurationAfter(0, Position(c, resample)), Orientation(c, n, resample)), Dilation(c, resample))
  }

  /** The value rewrites keep every keyframe time, so the clip's Duration is the
      one the resampled channels give. */
  lemma TransformCurvesDuration(c: LayerCurves, n: Numerics, resample: Resampler)
    ensures DurationAfter(0, TransformCurves(c, n, resample)) == StagedDuration(c, n, resample)
  {
    DurationAfterConcat(0, Position(c, resample), Orientation(c, n, resample));
    DurationAfterConcat(0, Position(c, resample) + Orientation(c, n, resample), Dilation(c, resample));
    var translation := resample(c.translation.AsSeq());
    var scaling := resample(c.scaling.AsSeq());
    MappedSameEnds("Transform.Position", translation, n.transformPoint);
    MappedSameEnds("Transform.Scale", scaling, n.transformNormal);
    SameEndsRefl(Orientation(c, n, resample));
    SameEndsConcat(Position(c, resample), Mapped("Transform.Position", translation, n.transformPoint),
      Orientation(c, n, resample), Orientation(c, n, resample));
    SameEndsConcat(Position(c, resample) + Orientation(c, n, resample),
      Mapped("Transform.Position", translation, n.transformPoint) + Orientation(c, n, resample),
      Dilation(c, resample), Mapped("Transform.Scale", scaling, n.transformNormal));
    DurationSameEnds(0, ResampledTransformCurves(c, n, resample), TransformCurves(c, n, resample));
  }

  /** The focal-length rewrite keeps every keyframe time, so Duration after the
      camera channels is the one the resampled channels give, added one at a time. */
  lemma CameraCurvesDuration(d: int, c: LayerCurves, camera: Camera, n: Numerics, resample: Resampler)
    ensures DurationAfter(d, CameraCurves(c, camera, n, resample))
         == DurationAfter(DurationAfter(DurationAfter(DurationAfter(d,
              Plain("Camera.VerticalFieldOfView", ChannelFrames(c.fieldOfViewY, resample))),
              Plain("Camera.VerticalFieldOfView", ChannelFrames(c.focalLength, resample))),
              Plain("Camera.NearClipPlane", ChannelFrames(c.nearPlane, resample))),
              Plain("Camera.FarClipPlane", ChannelFrames(c.farPlane, resample)))
  {
    var fov := Plain("Camera.VerticalFieldOfView", ChannelFrames(c.fieldOfViewY, resample));
    var fl := Plain("Camera.VerticalFieldOfView", ChannelFrames(c.focalLength, resample));
    var converted := Mapped("Camera.VerticalFieldOfView", ChannelFrames(c.focalLength, resample), FovFromFocalLength(camera.filmHeight, n));
    var near := Plain("Camera.NearClipPlane", ChannelFrames(c.nearPlane, resample));
    var far := Plain("Camera.FarClipPlane", ChannelFrames(c.farPlane, resample));
    MappedSameEnds("Camera.VerticalFieldOfView", ChannelFrames(c.focalLength, resample), FovFromFocalLength(camera.filmHeight, n));
    SameEndsRefl(fov);
    SameEndsRefl(near);
    SameEndsRefl(far);
    SameEndsConcat(fov, fov, fl, converted);
    SameEndsConcat(fov + fl, fov + converted, near, near);
    SameEndsConcat(fov + fl + near, fov + converted + near, far, far);
    DurationSameEnds(d, fov + fl + near + far, CameraCurves(c, camera, n, resample));
    DurationAfterConcat(d, fov + fl + near, far);
    DurationAfterConcat(d, fov + fl, near);
    DurationAfterConcat(d, fov, fl);
  }

  // ---------------------------------------------------------------------------
  // The converter

  datatype ClipEntry = ClipEntry(name: string, clip: AnimationClip)

  /** The Dictionary<String^, AnimationClip^> ProcessAnimation fills, as its entries
      in the order they are added; `values` keeps the name and the value of each
      clip as it was when added. */
  class ClipDictionary {
    var entries: seq<ClipEntry>
    ghost var values: seq<NamedClip>

    ghost predicate Valid()
      reads this
    {
      && |entries| == |values|
      && forall i :: 0 <= i < |entries| ==> entries[i].name == values[i].name
    }

    constructor ()
      ensures entries == [] && values == [] && Valid()
    {
      entries := [];
      values := [];
    }

    /** Add(name, clip); a name added twice is not part of this model. */
    method Add(name: string, clip: AnimationClip)
      requires Valid()
      modifies this
      ensures entries == old(entries) + [ClipEntry(name, clip)]
      ensures values == old(values) + [NamedClip(name, clip.Value())]
      ensures Valid()
    {
      values := values + [NamedClip(name, clip.Value())];
      entries := entries + [ClipEntry(name, clip)];
      assert clip.Value() == old(clip.Value());
    }
  }

  /** The test of ProcessAnimationByCurve before the dictionary's Add: a clip is
      added under the node's name only when it has a curve. */
  method AddIfAnimated(animationClips: ClipDictionary, nodeName: string, animationClip: AnimationClip, ghost value: ClipValue)
    requires animationClips.Valid() && animationClip.Value() == value
    modifies animationClips
    ensures animationClips.Valid()
    ensures animationClips.values == old(animationClips.values) + (if |value.curves| > 0 then [NamedClip(nodeName, value)] else [])
  {
    if |animationClip.curves| > 0 {
      animationClips.Add(nodeName, animationClip);
      assert animationClip.Value() == value;
    } else {
      assert animationClips.values + [] == animationClips.values;
    }
  }

  /** The value rewrites of ProcessAnimationByCurve: every translation value of the
      first curve is moved by the matrix modifier and every scaling value of the
      last curve by its rotation part; the curves in between keep theirs. */
  method RewriteTranslationAndScale(animationClip: AnimationClip, translationCurve: AnimationCurve?, scalingCurve: AnimationCurve?,
                                    n: Numerics, ghost translation: Option<seq<KeyFrame>>, ghost middle: seq<CurveValue>,
                                    ghost scaling: Option<seq<KeyFrame>>)
    requires animationClip.Distinct()
    requires translationCurve == null <==> translation.None?
    requires scalingCurve == null <==> scaling.None?
    requires translationCurve != null ==> 0 < |animationClip.curves| && animationClip.curves[0].curve == translationCurve
    requires scalingCurve != null ==>
      0 < |animationClip.curves| && animationClip.curves[|animationClip.curves| - 1].curve == scalingCurve
    requires animationClip.Contents() == Plain("Transform.Position", translation) + middle + Plain("Transform.Scale", scaling)
    modifies translationCurve, scalingCurve
    ensures animationClip.Contents()
         == Mapped("Transform.Position", translation, n.transformPoint) + middle + Mapped("Transform.Scale", scaling, n.transformNormal)
  {
    AppendAssociative(Plain("Transform.Position", translation), middle, Plain("Transform.Scale", scaling));
    RewriteFirstCurve(animationClip, translationCurve, n.transformPoint,
      "Transform.Position", translation, middle + Plain("Transform.Scale", scaling));
    AppendAssociative(Mapped("Transform.Position", translation, n.transformPoint), middle, Plain("Transform.Scale", scaling));
    RewriteLastCurve(animationClip, scalingCurve, n.transformNormal,
      Mapped("Transform.Position", translation, n.transformPoint) + middle, "Transform.Scale", scaling);
  }

  class AnimationConverter {
    const scene: Scene
    const exportedFromMaya: bool
    const sceneMapping: SceneMapping
    /** What ProcessAnimationCurveFloatsHelper computes from a curve group at the
        scene's frame length. */
    ghost const resample: Resampler
    /** The clip entry ProcessAnimationByCurve adds for a node of a layer. */
    ghost const nodeClips: Option<LayerId> -> Node -> seq<NamedClip>

    constructor (sceneMapping: SceneMapping)
      ensures this.sceneMapping == sceneMapping && scene == sceneMapping.scene
      ensures exportedFromMaya == (sceneMapping.scene.applicationName == "Maya")
      ensures resample == XenkoResampling(sceneMapping.scene.oneFrame)
      ensures sceneMapping.scene.oneFrame > 0 ==> Valid() && ClipsValid()
    {
      this.sceneMapping := sceneMapping;
      scene := sceneMapping.scene;
      exportedFromMaya := sceneMapping.scene.applicationName == "Maya";
      resample := XenkoResampling(sceneMapping.scene.oneFrame);
      nodeClips := layer => NodeClips(layer, sceneMapping.numerics, XenkoResampling(sceneMapping.scene.oneFrame));
    }

    /** The scene's frame length is positive, so `resample` is the Xenko resampler. */
    ghost predicate Valid() {
      Resamples(resample, scene.oneFrame)
    }

    /** `nodeClips` gives each node's clip entry. */
    ghost predicate ClipsValid() {
      forall layer, node {:trigger NodeClip(layer, node, sceneMapping.numerics, resample)} ::
        nodeClips(layer)(node) == NodeClip(layer, node, sceneMapping.numerics, resample)
    }

    /** The constructor's argument check: a null scene mapping is an
        ArgumentNullException. */
    static method Create(sceneMapping: SceneMapping?) returns (r: Result<AnimationConverter, ConverterError>)
      ensures sceneMapping == null <==> r == Failure(ArgumentNull("sceneMapping"))
      ensures r.Success? ==> fresh(r.value) && r.value.sceneMapping == sceneMapping
    {
      if sceneMapping == null {
        return Failure(ArgumentNull("sceneMapping"));
      }
      var converter := new AnimationConverter(sceneMapping);
      return Success(converter);
    }

    /** HasAnimationData: true when there is a stack and every stack's first layer
        animates the tree; the loop stops at the first stack that does not. */
    method HasAnimationData() returns (r: bool)
      ensures r == AllStacksAnimated(scene.stacks, scene.root)
    {
      var animStackCount := |scene.stacks|;
      if animStackCount > 0 {
        var check := true;
        var i := 0;
        while i < animStackCount && check
          invariant 0 <= i <= animStackCount
          invariant check == forall j :: 0 <= j < i ==> CheckAnimationData(scene.stacks[j].FirstLayer(), scene.root)
        {
          var animLayer := scene.stacks[i].FirstLayer();
          check := check && CheckAnimationData(animLayer, scene.root);
          i := i + 1;
        }
        return check;
      }
      return false;
    }

    /** ExtractAnimationNodesNoInit: null without stacks, otherwise a new list of
        the listed nodes of every stack in turn. */
    method ExtractAnimationNodesNoInit() returns (animationNodes: NameList?)
      ensures |scene.stacks| == 0 <==> animationNodes == null
      ensures animationNodes != null ==> fresh(animationNodes) && animationNodes.items == StackNames(AnyComponent, scene.stacks, scene.root)
    {
      var animStackCount := |scene.stacks|;
      animationNodes := null;
      if animStackCount > 0 {
        animationNodes := new NameList();
        for i := 0 to animStackCount
          invariant animationNodes.items == StackNames(AnyComponent, scene.stacks[..i], scene.root)
        {
          var animLayer := scene.stacks[i].FirstLayer();
          assert scene.stacks[..i + 1][..i] == scene.stacks[..i];
          GetAnimationNodes(animLayer, scene.root, animationNodes);
        }
        assert scene.stacks[..animStackCount] == scene.stacks;
      }
    }

    /** GetAnimationNodes: appends the names of the listed nodes of the subtree in
        depth-first pre-order. */
    method GetAnimationNodes(animLayer: Option<LayerId>, node: Node, animationNodes: NameList)
      modifies animationNodes
      ensures animationNodes.items == old(animationNodes.items) + ListedNames(AnyComponent, animLayer, Preorder(node))
      decreases node, 1
    {
      ghost var start := animationNodes.items;
      ghost var own := if Listed(AnyComponent, animLayer, node) then [node.name] else [];
      ghost var rest := ChildNames(AnyComponent, animLayer, node.children, |node.children|);
      ListNode(animLayer, node, animationNodes);
      ListChildren(animLayer, node, animationNodes);
      assert animationNodes.items == start + own + rest;
      assert node.children[..|node.children|] == node.children;
      ChildNamesAll(AnyComponent, animLayer, node.children, |node.children|);
      ListedPreorder(AnyComponent, animLayer, node);
      AppendAssociative(start, own, rest);
    }

    /** The loop of GetAnimationNodes over the node's children, in index order. */
    method ListChildren(animLayer: Option<LayerId>, node: Node, animationNodes: NameList)
      modifies animationNodes
      ensures animationNodes.items == old(animationNodes.items) + ChildNames(AnyComponent, animLayer, node.children, |node.children|)
      decreases node, 0
    {
      for i := 0 to |node.children|
        invariant animationNodes.items == old(animationNodes.items) + ChildNames(AnyComponent, animLayer, node.children, i)
      {
        ghost var start := old(animationNodes.items);
        ghost var done := ChildNames(AnyComponent, animLayer, node.children, i);
        GetAnimationNodes(animLayer, node.children[i], animationNodes);
        AppendAssociative(start, done, ListedNames(AnyComponent, animLayer, Preorder(node.children[i])));
      }
    }

    /** The node's own part of GetAnimationNodes. The camera test starts true and
        only ever conjoins curves it has just found, so every camera node is listed. */
    method ListNode(animLayer: Option<LayerId>, node: Node, animationNodes: NameList)
      modifies animationNodes
      ensures animationNodes.items == old(animationNodes.items) + (if Listed(AnyComponent, animLayer, node) then [node.name] else [])
    {
      var nodeName := node.name;
      var c := CurvesOf(node, animLayer);
      var checkTranslation := c.translation.x.Some?;
      checkTranslation := checkTranslation || c.translation.y.Some?;
      checkTranslation := checkTranslation || c.translation.z.Some?;
      var checkRotation := c.rotation.x.Some?;
      checkRotation := checkRotation || c.rotation.y.Some?;
      checkRotation := checkRotation || c.rotation.z.Some?;
      var checkScale := c.scaling.x.Some?;
      checkScale := checkScale || c.scaling.y.Some?;
      checkScale := checkScale || c.scaling.z.Some?;
      if checkTranslation || checkRotation || checkScale {
        animationNodes.Add(nodeName);
      } else {
        var checkCamera := true;
        var camera := node.Camera();
        if camera.Some? {
          if c.fieldOfViewY.Some? {
            checkCamera := checkCamera && c.fieldOfViewY.Some?;
          }
          if c.focalLength.Some? {
            checkCamera := checkCamera && c.focalLength.Some?;
          }
          if checkCamera {
            animationNodes.Add(nodeName);
          }
        }
      }
    }

    /** ProcessAnimationCurveVector: resamples the curves into a new cubic curve,
        adds it to the clip under the name and raises Duration to its last time;
        nothing happens when the resampler reports no animation. */
    method ProcessAnimationCurveVector(animationClip: AnimationClip, name: string, numCurves: nat, curves: seq<Option<AnimCurve>>)
      returns (animationCurve: AnimationCurve?)
      requires Valid() && numCurves <= 3 && numCurves <= |curves|
      modifies animationClip
      ensures animationCurve == null <==> resample(curves[..numCurves]).None?
      ensures animationCurve == null ==> animationClip.curves == old(animationClip.curves)
      ensures animationCurve != null ==>
        && fresh(animationCurve)
        && animationCurve.interpolationType == CubicCurve
        && animationClip.curves == old(animationClip.curves) + [NamedCurve(name, animationCurve)]
      ensures animationClip.Contents() == old(animationClip.Contents()) + Plain(name, resample(curves[..numCurves]))
      ensures animationClip.duration == DurationAfter(old(animationClip.duration), Plain(name, resample(curves[..numCurves])))
      ensures old(animationClip.Distinct()) ==> animationClip.Distinct()
    {
      ghost var before := animationClip.Contents();
      var keyFrames := XenkoResampler.ProcessAnimationCurveFloatsHelper(curves, numCurves, scene.oneFrame);
      if keyFrames.None? {
        return null;
      }
      animationCurve := new AnimationCurve();
      // Switch to cubic implicit interpolation mode for Vector3
      animationCurve.interpolationType := CubicCurve;
      AddKeyFrames(animationCurve, keyFrames.value);
      assert animationCurve.keyFrames == keyFrames.value;
      assert animationClip.Contents() == before;
      AddCurveWithDuration(animationClip, name, animationCurve);
    }

    /** ProcessAnimationCurveRotation: resamples the Euler curves, turns the angles
        into radians, and adds a new curve of their quaternions at the same times;
        Duration is raised to the last Euler keyframe time. */
    method ProcessAnimationCurveRotation(animationClip: AnimationClip, name: string, curves: seq<Option<AnimCurve>>)
      returns (animationCurve: AnimationCurve?)
      requires Valid() && |curves| == 3
      modifies animationClip
      ensures animationCurve == null <==> resample(curves).None?
      ensures animationCurve == null ==> animationClip.curves == old(animationClip.curves)
      ensures animationCurve != null ==>
        && fresh(animationCurve)
        && animationClip.curves == old(animationClip.curves) + [NamedCurve(name, animationCurve)]
      ensures animationClip.Contents() == old(animationClip.Contents()) + Rotation(name, resample(curves), sceneMapping.numerics)
      ensures animationClip.duration == DurationAfter(old(animationClip.duration), Rotation(name, resample(curves), sceneMapping.numerics))
      ensures old(animationClip.Distinct()) ==> animationClip.Distinct()
    {
      ghost var before := animationClip.Contents();
      var keyFrames := XenkoResampler.ProcessAnimationCurveFloatsHelper(curves, 3, scene.oneFrame);
      assert curves[..3] == curves;
      if keyFrames.None? {
        assert Rotation(name, keyFrames, sceneMapping.numerics) == [];
        assert before + [] == before;
        return null;
      }
      // Convert euler angles to radians
      var frames := DegreesToRadiansFrames(keyFrames.value);
      animationCurve := QuaternionCurve(frames, sceneMapping.numerics.adjustedEulerToQuaternion);
      assert animationCurve.keyFrames == RotationFrames(keyFrames.value, sceneMapping.numerics);
      assert Rotation(name, keyFrames, sceneMapping.numerics) == [CurveValue(name, animationCurve.keyFrames)];
      assert animationClip.Contents() == before;
      AddCurveWithDuration(animationClip, name, animationCurve);
    }

    /** ComputeFovFromFL: every focal length becomes a vertical field of view in
        degrees. */
    method ComputeFovFromFL(channel: AnimationCurve, camera: Camera)
      modifies channel
      ensures channel.keyFrames == MapValues(old(channel.keyFrames), FovFromFocalLength(camera.filmHeight, sceneMapping.numerics))
      ensures channel.interpolationType == old(channel.interpolationType)
    {
      RewriteValues(channel, FovFromFocalLength(camera.filmHeight, sceneMapping.numerics));
    }

    /** The translation and rotation channels of ProcessAnimationByCurve, added to a
        new clip in that order; the translation curve is returned for the value
        rewrite that follows. */
    method AddPositionAndRotation(animationClip: AnimationClip, c: LayerCurves) returns (translationCurve: AnimationCurve?)
      requires Valid()
      requires animationClip.curves == [] && animationClip.duration == 0
      modifies animationClip
      ensures animationClip.Contents() == Position(c, resample) + Orientation(c, sceneMapping.numerics, resample)
      ensures animationClip.duration == DurationAfter(DurationAfter(0, Position(c, resample)), Orientation(c, sceneMapping.numerics, resample))
      ensures animationClip.Distinct()
      ensures translationCurve == null <==> resample(c.translation.AsSeq()).None?
      ensures translationCurve != null ==>
        0 < |animationClip.curves| && animationClip.curves[0] == NamedCurve("Transform.Position", translationCurve)
      ensures translationCurve != null ==> fresh(translationCurve)
    {
      assert c.translation.AsSeq()[..3] == c.translation.AsSeq();
      assert animationClip.Contents() == [];
      translationCurve := ProcessAnimationCurveVector(animationClip, "Transform.Position", 3, c.translation.AsSeq());
      var rotationCurve := ProcessAnimationCurveRotation(animationClip, "Transform.Rotation", c.rotation.AsSeq());
    }

    /** The three transform channels of ProcessAnimationByCurve, added to a new clip
        in the order translation, rotation, scaling; the translation and scaling
        curves are returned for the value rewrites that follow. */
    method AddTransformCurves(animationClip: AnimationClip, c: LayerCurves)
      returns (translationCurve: AnimationCurve?, scalingCurve: AnimationCurve?)
      requires Valid()
      requires animationClip.curves == [] && animationClip.duration == 0
      modifies animationClip
      ensures animationClip.Contents() == ResampledTransformCurves(c, sceneMapping.numerics, resample)
      ensures animationClip.duration == StagedDuration(c, sceneMapping.numerics, resample)
      ensures animationClip.Distinct()
      ensures translationCurve == null <==> resample(c.translation.AsSeq()).None?
      ensures translationCurve != null ==>
        0 < |animationClip.curves| && animationClip.curves[0] == NamedCurve("Transform.Position", translationCurve)
      ensures translationCurve != null ==> fresh(translationCurve)
      ensures scalingCurve != null ==> fresh(scalingCurve)
      ensures scalingCurve == null <==> resample(c.scaling.AsSeq()).None?
      ensures scalingCurve != null ==>
        0 < |animationClip.curves| && animationClip.curves[|animationClip.curves| - 1] == NamedCurve("Transform.Scale", scalingCurve)
    {
      translationCurve := AddPositionAndRotation(animationClip, c);
      ghost var before := animationClip.curves;
      assert c.scaling.AsSeq()[..3] == c.scaling.AsSeq();
      scalingCurve := ProcessAnimationCurveVector(animationClip, "Transform.Scale", 3, c.scaling.AsSeq());
      if translationCurve != null {
        assert animationClip.curves[0] == before[0];
        assert fresh(translationCurve);
      }
    }

    /** The transform part of ProcessAnimationByCurve: the three channels are added,
        then every translation value is moved by the matrix modifier and every
        scaling value by its rotation part. */
    method ProcessTransformCurves(animationClip: AnimationClip, c: LayerCurves)
      requires Valid()
      requires animationClip.curves == [] && animationClip.duration == 0
      modifies animationClip
      ensures animationClip.Contents() == TransformCurves(c, sceneMapping.numerics, resample)
      ensures animationClip.duration == DurationAfter(0, TransformCurves(c, sceneMapping.numerics, resample))
      ensures animationClip.Distinct()
    {
      var numerics := sceneMapping.numerics;
      var translationCurve, scalingCurve := AddTransformCurves(animationClip, c);
      RewriteTranslationAndScale(animationClip, translationCurve, scalingCurve, numerics,
        resample(c.translation.AsSeq()), Orientation(c, numerics, resample), resample(c.scaling.AsSeq()));
      TransformCurvesDuration(c, numerics, resample);
    }

    /** One camera channel of ProcessAnimationByCurve: when the camera has the curve,
        it is resampled into a new curve of the clip under the name. */
    method ProcessCameraChannel(animationClip: AnimationClip, name: string, curve: Option<AnimCurve>)
      returns (channel: AnimationCurve?)
      requires Valid()
      modifies animationClip
      ensures channel == null <==> ChannelFrames(curve, resample).None?
      ensures channel == null ==> animationClip.curves == old(animationClip.curves)
      ensures channel != null ==>
        && fresh(channel)
        && animationClip.curves == old(animationClip.curves) + [NamedCurve(name, channel)]
      ensures animationClip.Contents() == old(animationClip.Contents()) + Plain(name, ChannelFrames(curve, resample))
      ensures animationClip.duration == DurationAfter(old(animationClip.duration), Plain(name, ChannelFrames(curve, resample)))
      ensures old(animationClip.Distinct()) ==> animationClip.Distinct()
    {
      if curve.Some? {
        assert [curve][..1] == [curve];
        channel := ProcessAnimationCurveVector(animationClip, name, 1, [curve]);
      } else {
        channel := null;
        assert animationClip.Contents() + [] == animationClip.Contents();
      }
    }

    /** The camera part of ProcessAnimationByCurve: the field of view, focal length,
        near plane and far plane channels in that order, the focal-length channel's
        values turned into a field of view when there is one. */
    method ProcessCameraCurves(animationClip: AnimationClip, c: LayerCurves, camera: Camera)
      requires Valid() && animationClip.Distinct()
      modifies animationClip
      ensures animationClip.Contents() == old(animationClip.Contents()) + CameraCurves(c, camera, sceneMapping.numerics, resample)
      ensures animationClip.duration == DurationAfter(old(animationClip.duration), CameraCurves(c, camera, sceneMapping.numerics, resample))
      ensures animationClip.Distinct()
    {
      ghost var before := animationClip.Contents();
      var fovAnimChannel := ProcessCameraChannel(animationClip, "Camera.VerticalFieldOfView", c.fieldOfViewY);
      ghost var fov := Plain("Camera.VerticalFieldOfView", ChannelFrames(c.fieldOfViewY, resample));
      var flAnimChannel := ProcessCameraChannel(animationClip, "Camera.VerticalFieldOfView", c.focalLength);
      // ComputeFovFromFL, only on a channel that exists
      RewriteLastCurve(animationClip, flAnimChannel, FovFromFocalLength(camera.filmHeight, sceneMapping.numerics),
        before + fov, "Camera.VerticalFieldOfView", ChannelFrames(c.focalLength, resample));
      ghost var converted := Mapped("Camera.VerticalFieldOfView", ChannelFrames(c.focalLength, resample), FovFromFocalLength(camera.filmHeight, sceneMapping.numerics));
      var nearAnimChannel := ProcessCameraChannel(animationClip, "Camera.NearClipPlane", c.nearPlane);
      ghost var near := Plain("Camera.NearClipPlane", ChannelFrames(c.nearPlane, resample));
      var farAnimChannel := ProcessCameraChannel(animationClip, "Camera.FarClipPlane", c.farPlane);
      AppendAssociative(before, fov, converted);
      AppendAssociative(before, fov + converted, near);
      AppendAssociative(before, fov + converted + near, Plain("Camera.FarClipPlane", ChannelFrames(c.farPlane, resample)));
      CameraCurvesDuration(old(animationClip.duration), c, camera, sceneMapping.numerics, resample);
    }

    /** The clip ProcessAnimationByCurve builds for one node: a new clip holding the
        node's transform curves and, for a camera, its camera curves, with the
        Duration they give. */
    method ProcessNodeCurves(animLayer: Option<LayerId>, node: Node) returns (animationClip: AnimationClip)
      requires Valid()
      ensures fresh(animationClip)
      ensures animationClip.Value() == ClipValue(NodeCurves(CurvesOf(node, animLayer), node.Camera(), sceneMapping.numerics, resample),
                                                 DurationAfter(0, NodeCurves(CurvesOf(node, animLayer), node.Camera(), sceneMapping.numerics, resample)))
    {
      animationClip := new AnimationClip();
      var c := CurvesOf(node, animLayer);
      ProcessTransformCurves(animationClip, c);
      var camera := node.Camera();
      if camera.Some? {
        ProcessCameraCurves(animationClip, c, camera.value);
        DurationAfterConcat(0, TransformCurves(c, sceneMapping.numerics, resample), CameraCurves(c, camera.value, sceneMapping.numerics, resample));
      } else {
        assert TransformCurves(c, sceneMapping.numerics, resample) + [] == TransformCurves(c, sceneMapping.numerics, resample);
      }
    }

    /** The node's own part of ProcessAnimationByCurve: its clip is built and added
        under the node's name when it has a curve. */
    method AddNodeClip(animationClips: ClipDictionary, animLayer: Option<LayerId>, node: Node)
      requires Valid() && ClipsValid() && animationClips.Valid()
      modifies animationClips
      ensures animationClips.Valid()
      ensures animationClips.values == old(animationClips.values) + nodeClips(animLayer)(node)
    {
      ghost var cs := NodeCurves(CurvesOf(node, animLayer), node.Camera(), sceneMapping.numerics, resample);
      assert nodeClips(animLayer)(node) == NodeClip(animLayer, node, sceneMapping.numerics, resample);
      var animationClip := ProcessNodeCurves(animLayer, node);
      AddIfAnimated(animationClips, node.name, animationClip, ClipValue(cs, DurationAfter(0, cs)));
    }

    /** ProcessAnimationByCurve: the node's clip is added under the node's name when
        it has a curve, then the children are processed in order; the dictionary
        gains the clips of the subtree's nodes in depth-first pre-order. */
    method ProcessAnimationByCurve(animationClips: ClipDictionary, animLayer: Option<LayerId>, node: Node)
      requires Valid() && ClipsValid() && animationClips.Valid()
      modifies animationClips
      ensures animationClips.Valid()
      ensures animationClips.values == old(animationClips.values) + FlatMap(Preorder(node), nodeClips(animLayer))
      decreases node, 1
    {
      AddNodeClip(animationClips, animLayer, node);
      ProcessChildClips(animationClips, animLayer, node);
      assert node.children[..|node.children|] == node.children;
      ChildFlatMapAll(node.children, |node.children|, nodeClips(animLayer));
      FlatMapPreorder(node, nodeClips(animLayer));
    }

    /** The loop of ProcessAnimationByCurve over the node's children, in index order. */
    method ProcessChildClips(animationClips: ClipDictionary, animLayer: Option<LayerId>, node: Node)
      requires Valid() && ClipsValid() && animationClips.Valid()
      modifies animationClips
      ensures animationClips.Valid()
      ensures animationClips.values == old(animationClips.values) + ChildFlatMap(node.children, |node.children|, nodeClips(animLayer))
      decreases node, 0
    {
      for i := 0 to |node.children|
        invariant animationClips.Valid()
        invariant animationClips.values == old(animationClips.values) + ChildFlatMap(node.children, i, nodeClips(animLayer))
      {
        ProcessAnimationByCurve(animationClips, animLayer, node.children[i]);
      }
    }

    /** The entries `nodeClips` gives are those NodeClips gives. */
    lemma NodeClipsAgree(layer: Option<LayerId>, nodes: seq<Node>)
      requires ClipsValid()
      ensures FlatMap(nodes, nodeClips(layer)) == FlatMap(nodes, NodeClips(layer, sceneMapping.numerics, resample))
    {
      forall m | m in nodes
        ensures nodeClips(layer)(m) == NodeClips(layer, sceneMapping.numerics, resample)(m)
      {
        assert NodeClips(layer, sceneMapping.numerics, resample)(m) == NodeClip(layer, m, sceneMapping.numerics, resample);
      }
      FlatMapCongruent(nodes, nodeClips(layer), NodeClips(layer, sceneMapping.numerics, resample));
    }

    /** ProcessAnimation: a new dictionary; for the first animation stack only, the
        destination pivots are reset, every node's pivot state is set, the pivot
        animation is converted at 30 frames per second, the clips of the first layer
        are added in depth-first pre-order, and the pivot set is reset to the source. */
    method ProcessAnimation() returns (animationClips: ClipDictionary)
      requires scene.Valid() && Valid() && ClipsValid()
      modifies scene
      ensures fresh(animationClips) && animationClips.Valid()
      ensures animationClips.values ==
        if |scene.stacks| == 0 then []
        else FlatMap(Preorder(scene.root), NodeClips(scene.stacks[0].FirstLayer(), sceneMapping.numerics, resample))
      ensures scene.pivots ==
        if |scene.stacks| == 0 then old(scene.pivots)
        else PivotsAfter(old(scene.pivots), Preorder(scene.root), SetPivotStateRule(sceneMapping.numerics))
      ensures scene.pivotEvents == old(scene.pivotEvents) +
        if |scene.stacks| == 0 then []
        else [PivotEvent.ResetPivotSet(DestinationPivot),
              PivotEvent.ConvertPivotAnimationRecursive(0, DestinationPivot, 30.0),
              PivotEvent.ResetPivotSet(SourcePivot)]
    {
      animationClips := new ClipDictionary();
      var animStackCount := |scene.stacks|;
      // Only one animation stack is supported.
      if animStackCount > 1 {
        animStackCount := 1;
      }
      for i := 0 to animStackCount
        invariant fresh(animationClips) && animationClips.Valid()
        invariant i == 0 ==>
          && animationClips.values == []
          && scene.pivots == old(scene.pivots) && scene.pivotEvents == old(scene.pivotEvents)
        invariant i == 1 ==>
          && animationClips.values == FlatMap(Preorder(scene.root), nodeClips(scene.stacks[0].FirstLayer()))
          && scene.pivots == PivotsAfter(old(scene.pivots), Preorder(scene.root), SetPivotStateRule(sceneMapping.numerics))
          && scene.pivotEvents == old(scene.pivotEvents) +
               [PivotEvent.ResetPivotSet(DestinationPivot),
                PivotEvent.ConvertPivotAnimationRecursive(0, DestinationPivot, 30.0),
                PivotEvent.ResetPivotSet(SourcePivot)]
      {
        ProcessStack(animationClips, i);
      }
      if animStackCount > 0 {
        NodeClipsAgree(scene.stacks[0].FirstLayer(), Preorder(scene.root));
      }
    }

    /** The body of ProcessAnimation's loop for one animation stack. */
    method ProcessStack(animationClips: ClipDictionary, i: nat)
      requires Valid() && ClipsValid() && animationClips.Valid()
      requires i < |scene.stacks|
      requires forall m :: m in Preorder(scene.root) ==> m.id in scene.pivots
      modifies scene, animationClips
      ensures animationClips.Valid()
      ensures animationClips.values == old(animationClips.values) + FlatMap(Preorder(scene.root), nodeClips(scene.stacks[i].FirstLayer()))
      ensures scene.pivots == PivotsAfter(old(scene.pivots), Preorder(scene.root), SetPivotStateRule(sceneMapping.numerics))
      ensures scene.pivotEvents == old(scene.pivotEvents) +
        [PivotEvent.ResetPivotSet(DestinationPivot),
         PivotEvent.ConvertPivotAnimationRecursive(i, DestinationPivot, 30.0),
         PivotEvent.ResetPivotSet(SourcePivot)]
    {
      var animLayer := scene.stacks[i].FirstLayer();
      scene.ResetPivotSet(DestinationPivot);
      SetPivotStateRecursive(scene.root);
      scene.ConvertPivotAnimationRecursive(i, DestinationPivot, 30.0);
      ProcessAnimationByCurve(animationClips, animLayer, scene.root);
      scene.ResetPivotSet(SourcePivot);
    }

    /** The node's own part of SetPivotStateRecursive, applied step by step to its
        pivot data. */
    method SetPivotState(node: Node)
      requires node.id in scene.pivots
      modifies scene
      ensures scene.pivots == old(scene.pivots)[node.id := PivotDecision(node, old(scene.pivots)[node.id], sceneMapping.numerics)]
      ensures scene.pivotEvents == old(scene.pivotEvents)
    {
      var p := scene.pivots[node.id];
      p := p.(source := p.source.(state := PivotActive));
      p := p.(destination := p.destination.(state := PivotActive));
      var rotationOrder := p.source.rotationOrder;
      p := p.(destination := p.destination.(rotationOrder := rotationOrder));
      // Cameras and lights without a target get their post-rotation compensated.
      if node.Camera().Some? || node.IsLight() {
        if !node.hasTarget {
          var lRV := Vec4(90.0, 0.0, 0.0, 1.0);
          if node.Camera().Some? {
            lRV := Vec4(0.0, 90.0, 0.0, 1.0);
          }
          var prV := sceneMapping.numerics.composePostRotation(p.source.postRotation, lRV);
          p := p.(source := p.source.(postRotation := prV));
          p := p.(rotationActive := true);
        }
        // Point lights radiate in all directions.
        if node.attribute.LightAttribute? && node.attribute.lightType == PointLight {
          p := p.(source := p.source.(postRotation := Vec4(0.0, 0.0, 0.0, 0.0)));
        }
      }
      if || node.attribute == Skeleton
         || node.attribute == MarkerAttribute(EffectorFK)
         || node.attribute == MarkerAttribute(EffectorIK)
      {
        if p.rotationActive {
          p := p.(destination := p.destination.(preRotation := p.source.preRotation));
        }
        p := p.(destination := p.destination.(rotationPivot := ZeroPoint, scalingPivot := ZeroPoint));
        p := p.(destination := p.destination.(rotationOffset := ZeroPoint, scalingOffset := ZeroPoint));
      } else {
        p := p.(destination := p.destination.(preRotation := ZeroPoint));
        p := p.(destination := p.destination.(rotationPivot := p.source.rotationPivot, scalingPivot := p.source.scalingPivot));
        p := p.(destination := p.destination.(rotationOffset := p.source.rotationOffset, scalingOffset := p.source.scalingOffset));
      }
      scene.pivots := scene.pivots[node.id := p];
    }

    /** SetPivotStateRecursive: the decision is applied to the node, then to each
        child's subtree in index order. */
    method SetPivotStateRecursive(node: Node)
      requires forall m :: m in Preorder(node) ==> m.id in scene.pivots
      modifies scene
      ensures scene.pivots == PivotsAfter(old(scene.pivots), Preorder(node), SetPivotStateRule(sceneMapping.numerics))
      ensures scene.pivotEvents == old(scene.pivotEvents)
      decreases node, 1
    {
      SetPivotState(node);
      SetChildPivotStates(node);
      assert node.children[..|node.children|] == node.children;
      ChildPivotsAll(old(scene.pivots)[node.id := PivotDecision(node, old(scene.pivots)[node.id], sceneMapping.numerics)],
        node.children, |node.children|, SetPivotStateRule(sceneMapping.numerics));
      PivotsAfterPreorder(old(scene.pivots), node, SetPivotStateRule(sceneMapping.numerics));
    }

    /** The loop of SetPivotStateRecursive over the node's children. */
    method SetChildPivotStates(node: Node)
      requires forall m :: m in Preorder(node) ==> m.id in scene.pivots
      modifies scene
      ensures scene.pivots == ChildPivots(old(scene.pivots), node.children, |node.children|, SetPivotStateRule(sceneMapping.numerics))
      ensures scene.pivotEvents == old(scene.pivotEvents)
      decreases node, 0
    {
      for i := 0 to |node.children|
        invariant scene.pivots == ChildPivots(old(scene.pivots), node.children, i, SetPivotStateRule(sceneMapping.numerics))
        invariant scene.pivotEvents == old(scene.pivotEvents)
      {
        PreorderChild(node, i);
        SetPivotStateRecursive(node.children[i]);
      }
    }
  }
}
