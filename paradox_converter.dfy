/** The Paradox AnimationConverter: it resamples the translation, rotation and scaling
    curves of every node, and the field-of-view curves of camera nodes, into ONE
    AnimationClip for the whole scene, each curve named after its node; it makes the
    pivot sets of every node active before the SDK bakes pivots into the curves; and it
    answers whether a scene has animation data and which nodes are animated. A curve
    group with a null curve is skipped entirely by its resampler. */
module ParadoxConverter {
  import opened Wrappers
  import opened Fbx
  import opened Sampling
  import opened Animations
  import opened ImportCommon
  import ParadoxResampler

  // ---------------------------------------------------------------------------
  // What the clip holds

  /** String::Format("Transform.Position[{0}]", nodeName) and its siblings. */
  function PositionName(nodeName: string): string {
    "Transform.Position[" + nodeName + "]"
  }

  function RotationName(nodeName: string): string {
    "Transform.Rotation[" + nodeName + "]"
  }

  function ScaleName(nodeName: string): string {
    "Transform.Scale[" + nodeName + "]"
  }

  /** Both camera channels are added under this one name. */
  const FieldOfViewName: string := "Camera.FieldOfViewVertical"

  /** The factor the field of view of a file not exported from Maya is multiplied by. */
  const NonMayaFovFactor: real := 0.6

  /** The quaternion keyframes built from resampled Euler angles in degrees: each
      angle is turned into radians, then the three are composed through the scene's
      matrix conversion, at the same time. */
  function RotationFrames(frames: seq<KeyFrame>, n: Numerics): (r: seq<KeyFrame>)
    ensures |r| == |frames|
    ensures forall i :: 0 <= i < |r| ==>
      r[i] == KeyFrame(frames[i].time, n.convertedEulerToQuaternion(Scale(DegreesToRadians)(frames[i].value)))
  {
    MapValues(MapValues(frames, Scale(DegreesToRadians)), n.convertedEulerToQuaternion)
  }

  function Rotation(name: string, frames: Option<seq<KeyFrame>>, n: Numerics): seq<CurveValue> {
    if frames.None? then [] else [CurveValue(name, RotationFrames(frames.value, n))]
  }

  /** ComputeFovFromFL's value rewrite: the vertical field of view, in radians, of a
      focal length on a film of the given height. */
  function FovFromFocalLength(filmHeight: real, n: Numerics): seq<real> -> seq<real> {
    v => seq(|v|, j requires 0 <= j < |v| => n.focalLengthToVerticalFov(filmHeight, v[j]))
  }

  /** The resampling ProcessAnimationCurveFloatsHelper performs: `resample` gives
      what the Paradox resampler gives at the frame length, stated for the curve
      groups it is applied to. */
  ghost predicate Resamples(resample: Resampler, oneFrame: int) {
    && oneFrame > 0
    && forall cs {:trigger ParadoxResampler.Resample(cs, oneFrame)} :: resample(cs) == ParadoxResampler.Resample(cs, oneFrame)
  }

  /** The Paradox resampler at a frame length, as a function of the curve group. */
  function ParadoxResampling(oneFrame: int): (r: Resampler)
    ensures oneFrame > 0 ==> Resamples(r, oneFrame)
  {
    cs => if oneFrame > 0 then ParadoxResampler.Resample(cs, oneFrame) else None
  }

  function Position(c: LayerCurves, nodeName: string, resample: Resampler): seq<CurveValue> {
    Plain(PositionName(nodeName), resample(c.translation.AsSeq()))
  }

  function Orientation(c: LayerCurves, nodeName: string, n: Numerics, resample: Resampler): seq<CurveValue> {
    Rotation(RotationName(nodeName), resample(c.rotation.AsSeq()), n)
  }

  function Dilation(c: LayerCurves, nodeName: string, resample: Resampler): seq<CurveValue> {
    Plain(ScaleName(nodeName), resample(c.scaling.AsSeq()))
  }

  /** The translation, rotation and scaling curves of a node: the translation values
      moved by the scene's matrix modifier; the scaling values are left as they are. */
  function TransformCurves(c: LayerCurves, nodeName: string, n: Numerics, resample: Resampler): seq<CurveValue> {
    Mapped(PositionName(nodeName), resample(c.translation.AsSeq()), n.transformPoint)
    + (Orientation(c, nodeName, n, resample) + Dilation(c, nodeName, resample))
  }

  /** The transform curves as the per-node ProcessAnimation leaves them: the loop
      over the translation keyframes assigns to the Value of the KeyFrameData value
      the list's indexer returns, a copy, and never stores it back, so the
      translation values stay as the resampler gave them. */
  function TransformCurvesAsWritten(c: LayerCurves, nodeName: string, n: Numerics, resample: Resampler): seq<CurveValue> {
    Position(c, nodeName, resample) + (Orientation(c, nodeName, n, resample) + Dilation(c, nodeName, resample))
  }

  /** The lost write: the curves as written agree with the intended ones exactly
      when there is no translation channel or the matrix modifier leaves every
      resampled translation value where it is. */
  lemma TranslationWriteLost(c: LayerCurves, nodeName: string, n: Numerics, resample: Resampler)
    ensures var t := resample(c.translation.AsSeq());
      TransformCurvesAsWritten(c, nodeName, n, resample) == TransformCurves(c, nodeName, n, resample)
      <==> t.None? || forall i :: 0 <= i < |t.value| ==> n.transformPoint(t.value[i].value) == t.value[i].value
  {
    var t := resample(c.translation.AsSeq());
    var rest := Orientation(c, nodeName, n, resample) + Dilation(c, nodeName, resample);
    var written := TransformCurvesAsWritten(c, nodeName, n, resample);
    var intended := TransformCurves(c, nodeName, n, resample);
    if t.Some? {
      var fs := t.value;
      var moved := MapValues(fs, n.transformPoint);
      assert written == [CurveValue(PositionName(nodeName), fs)] + rest;
      assert intended == [CurveValue(PositionName(nodeName), moved)] + rest;
      if written == intended {
        assert written[0] == intended[0];
        forall i | 0 <= i < |fs|
          ensures n.transformPoint(fs[i].value) == fs[i].value
        {
          assert moved[i] == fs[i];
        }
      }
      if forall i :: 0 <= i < |fs| ==> n.transformPoint(fs[i].value) == fs[i].value {
        assert moved == fs;
      }
    }
  }

  /** What the resampler gives for one camera curve: nothing when the camera has no
      such curve. */
  function ChannelFrames(x: Option<AnimCurve>, resample: Resampler): Option<seq<KeyFrame>> {
    if x.Some? then resample([x]) else None
  }

  /** The field-of-view channel's keyframes: degrees turned into radians, then
      multiplied by 0.6 unless the file was exported from Maya. */
  function FovFrames(frames: Option<seq<KeyFrame>>, exportedFromMaya: bool): Option<seq<KeyFrame>> {
    var radians := MapFrames(frames, Scale(DegreesToRadians));
    if exportedFromMaya then radians else MapFrames(radians, Scale(NonMayaFovFactor))
  }

  /** The camera curves of a camera node: the FieldOfViewY channel and the focal
      length channel turned into a field of view, each when it has a curve that
      gives keyframes. */
  function CameraCurves(c: LayerCurves, camera: Camera, n: Numerics, resample: Resampler, exportedFromMaya: bool): seq<CurveValue> {
    Plain(FieldOfViewName, FovFrames(ChannelFrames(c.fieldOfViewY, resample), exportedFromMaya))
    + Mapped(FieldOfViewName, ChannelFrames(c.focalLength, resample), FovFromFocalLength(camera.filmHeight, n))
  }

  /** The camera curves as the source computes them: ConvertDegreeToRadians and
      ComputeFovFromFL run on the channels without a null test, so a curve that
      exists but gives no keyframes fails with a null dereference. */
  function CameraCurvesAsWritten(c: LayerCurves, camera: Camera, n: Numerics, resample: Resampler, exportedFromMaya: bool)
    : Result<seq<CurveValue>, ConverterError>
  {
    var fovAnimChannel := ChannelFrames(c.fieldOfViewY, resample);
    var flAnimChannel := ChannelFrames(c.focalLength, resample);
    if c.fieldOfViewY.Some? && fovAnimChannel.None? then Failure(NullReference)
    else if c.focalLength.Some? && flAnimChannel.None? then Failure(NullReference)
    else
      var radians := if c.fieldOfViewY.Some? then MapValues(fovAnimChannel.value, Scale(DegreesToRadians)) else [];
      var fov := if c.fieldOfViewY.Some? then [CurveValue(FieldOfViewName, if exportedFromMaya then radians else MapValues(radians, Scale(NonMayaFovFactor)))] else [];
      var fl := if c.focalLength.Some? then [CurveValue(FieldOfViewName, MapValues(flAnimChannel.value, FovFromFocalLength(camera.filmHeight, n)))] else [];
      Success(fov + fl)
  }

  /** The curves the per-node ProcessAnimation adds for one node, in order. */
  function NodeCurves(layer: Option<LayerId>, node: Node, n: Numerics, resample: Resampler, exportedFromMaya: bool): seq<CurveValue> {
    var c := CurvesOf(node, layer);
    TransformCurves(c, node.name, n, resample)
    + (if node.Camera().Some? then CameraCurves(c, node.Camera().value, n, resample, exportedFromMaya) else [])
  }

  function NodeCurvesOf(layer: Option<LayerId>, n: Numerics, resample: Resampler, exportedFromMaya: bool): Node -> seq<CurveValue> {
    node => NodeCurves(layer, node, n, resample, exportedFromMaya)
  }

  /** The curves of the scene's clip: those of the nodes of the tree in depth-first
      pre-order, for the first layer of the first animation stack only. */
  function SceneCurves(stacks: seq<AnimStack>, root: Node, n: Numerics, resample: Resampler, exportedFromMaya: bool): seq<CurveValue> {
    if |stacks| == 0 then [] else FlatMap(Preorder(root), NodeCurvesOf(stacks[0].FirstLayer(), n, resample, exportedFromMaya))
  }

  // ---------------------------------------------------------------------------
  // What the clip's curves mean

  /** A transform curve group gives no channel exactly when one of its three curves
      is null or none of them has a key. */
  lemma TransformChannelNoneIff(curves: Components, resample: Resampler, oneFrame: int)
    requires Resamples(resample, oneFrame) && FiniteKeyTimes(curves.AsSeq())
    ensures resample(curves.AsSeq()).None? <==> !curves.Complete() || NoKeys(curves.AsSeq())
  {
    ParadoxResampler.ResampleNoneIff(curves.AsSeq(), oneFrame);
    assert ParadoxResampler.AllPresent(curves.AsSeq()) <==> curves.Complete() by {
      var s := curves.AsSeq();
      assert ParadoxResampler.AllPresent(s) ==> s[0].Some? && s[1].Some? && s[2].Some?;
    }
  }

  /** One camera curve gives no channel exactly when it has no key. */
  lemma SingleChannelNoneIff(x: Option<AnimCurve>, resample: Resampler, oneFrame: int)
    requires Resamples(resample, oneFrame) && FiniteKeyTimes([x])
    ensures ChannelFrames(x, resample).None? <==> !HasKeys(x)
  {
    ParadoxResampler.ResampleNoneIff([x], oneFrame);
    assert [x][0] == x;
  }

  /** The translation, rotation and scaling curves give no channel exactly when
      each of the three groups is incomplete or has no key. */
  lemma TransformCurvesEmptyIff(c: LayerCurves, nodeName: string, n: Numerics, resample: Resampler, oneFrame: int)
    requires Resamples(resample, oneFrame) && FiniteCurves(c)
    ensures |TransformCurves(c, nodeName, n, resample)| == 0 <==>
      && (!c.translation.Complete() || NoKeys(c.translation.AsSeq()))
      && (!c.rotation.Complete() || NoKeys(c.rotation.AsSeq()))
      && (!c.scaling.Complete() || NoKeys(c.scaling.AsSeq()))
  {
    TransformChannelNoneIff(c.translation, resample, oneFrame);
    TransformChannelNoneIff(c.rotation, resample, oneFrame);
    TransformChannelNoneIff(c.scaling, resample, oneFrame);
  }

  /** The camera curves give no channel exactly when neither the field-of-view nor
      the focal-length curve has a key. */
  lemma CameraCurvesEmptyIff(c: LayerCurves, camera: Camera, n: Numerics, resample: Resampler, oneFrame: int, exportedFromMaya: bool)
    requires Resamples(resample, oneFrame) && FiniteCurves(c)
    ensures |CameraCurves(c, camera, n, resample, exportedFromMaya)| == 0 <==> !HasKeys(c.fieldOfViewY) && !HasKeys(c.focalLength)
  {
    var cs := CameraSeq(c);
    assert cs[0] == c.fieldOfViewY && cs[1] == c.focalLength;
    assert FiniteKeyTimes([c.fieldOfViewY]) && FiniteKeyTimes([c.focalLength]);
    SingleChannelNoneIff(c.fieldOfViewY, resample, oneFrame);
    SingleChannelNoneIff(c.focalLength, resample, oneFrame);
  }

  /** A node adds no curve exactly when every transform group is incomplete or has no
      key and, for a camera, neither field-of-view curve has a key. */
  lemma NodeCurvesEmptyIff(layer: Option<LayerId>, node: Node, n: Numerics, resample: Resampler, oneFrame: int, exportedFromMaya: bool)
    requires Resamples(resample, oneFrame) && FiniteCurves(CurvesOf(node, layer))
    ensures var c := CurvesOf(node, layer);
      |NodeCurves(layer, node, n, resample, exportedFromMaya)| == 0 <==>
        && (!c.translation.Complete() || NoKeys(c.translation.AsSeq()))
        && (!c.rotation.Complete() || NoKeys(c.rotation.AsSeq()))
        && (!c.scaling.Complete() || NoKeys(c.scaling.AsSeq()))
        && (node.Camera().Some? ==> !HasKeys(c.fieldOfViewY) && !HasKeys(c.focalLength))
  {
    var c := CurvesOf(node, layer);
    var transform := TransformCurves(c, node.name, n, resample);
    var camera := if node.Camera().Some? then CameraCurves(c, node.Camera().value, n, resample, exportedFromMaya) else [];
    assert |NodeCurves(layer, node, n, resample, exportedFromMaya)| == |transform| + |camera|;
    TransformCurvesEmptyIff(c, node.name, n, resample, oneFrame);
    if node.Camera().Some? {
      CameraCurvesEmptyIff(c, node.Camera().value, n, resample, oneFrame, exportedFromMaya);
    }
  }

  /** A node that fails CheckAnimationData's own test adds no curve: a channel needs
      a complete transform triple or a field-of-view curve of a camera. */
  lemma NodeCurvesNeedAnimationData(layer: Option<LayerId>, node: Node, n: Numerics, resample: Resampler, oneFrame: int, exportedFromMaya: bool)
    requires Resamples(resample, oneFrame)
    ensures !OwnAnimationData(layer, node) ==> NodeCurves(layer, node, n, resample, exportedFromMaya) == []
  {
    var c := CurvesOf(node, layer);
    if !OwnAnimationData(layer, node) {
      assert !ParadoxResampler.AllPresent(c.translation.AsSeq()) by {
        assert !c.translation.Complete();
      }
      assert !ParadoxResampler.AllPresent(c.rotation.AsSeq()) by {
        assert !c.rotation.Complete();
      }
      assert !ParadoxResampler.AllPresent(c.scaling.AsSeq()) by {
        assert !c.scaling.Complete();
      }
      assert resample(c.translation.AsSeq()) == ParadoxResampler.Resample(c.translation.AsSeq(), oneFrame);
      assert resample(c.rotation.AsSeq()) == ParadoxResampler.Resample(c.rotation.AsSeq(), oneFrame);
      assert resample(c.scaling.AsSeq()) == ParadoxResampler.Resample(c.scaling.AsSeq(), oneFrame);
    }
  }

  /** The scene's clip has a curve only when the first stack's first layer passes
      CheckAnimationData on the root: some node of the tree has a complete transform
      triple or an animated camera field of view. */
  lemma SceneCurvesNeedAnimationData(stacks: seq<AnimStack>, root: Node, n: Numerics, resample: Resampler, oneFrame: int, exportedFromMaya: bool)
    requires Resamples(resample, oneFrame)
    requires |SceneCurves(stacks, root, n, resample, exportedFromMaya)| > 0
    ensures |stacks| > 0 && CheckAnimationData(stacks[0].FirstLayer(), root)
  {
    var layer := stacks[0].FirstLayer();
    var f := NodeCurvesOf(layer, n, resample, exportedFromMaya);
    var curves := FlatMap(Preorder(root), f);
    assert curves[0] in curves;
    FlatMapMeans(Preorder(root), f);
    var m :| m in Preorder(root) && curves[0] in f(m);
    assert |NodeCurves(layer, m, n, resample, exportedFromMaya)| > 0 by {
      assert f(m) == NodeCurves(layer, m, n, resample, exportedFromMaya);
    }
    NodeCurvesNeedAnimationData(layer, m, n, resample, oneFrame, exportedFromMaya);
    CheckAnimationDataFindsNode(layer, root);
  }

  /** Every curve of the scene's clip is a curve of one node of the tree, and every
      curve of every node of the tree is in it. */
  lemma SceneCurvesMeans(stacks: seq<AnimStack>, root: Node, n: Numerics, resample: Resampler, exportedFromMaya: bool)
    requires |stacks| > 0
    ensures forall e :: e in SceneCurves(stacks, root, n, resample, exportedFromMaya) <==>
      exists m :: m in Preorder(root) && e in NodeCurves(stacks[0].FirstLayer(), m, n, resample, exportedFromMaya)
  {
    var f := NodeCurvesOf(stacks[0].FirstLayer(), n, resample, exportedFromMaya);
    FlatMapMeans(Preorder(root), f);
    forall m | m in Preorder(root)
      ensures f(m) == NodeCurves(stacks[0].FirstLayer(), m, n, resample, exportedFromMaya)
    {
    }
  }

  /** The field-of-view channel keeps its keyframe count and times; each value is
      the angle in radians, times 0.6 unless the file came from Maya. */
  lemma FovFramesMeans(frames: seq<KeyFrame>, exportedFromMaya: bool)
    ensures var r := FovFrames(Some(frames), exportedFromMaya).value;
      && |r| == |frames|
      && forall i :: 0 <= i < |r| ==>
        && r[i].time == frames[i].time
        && r[i].value == (if exportedFromMaya then Scale(DegreesToRadians)(frames[i].value)
                          else Scale(NonMayaFovFactor)(Scale(DegreesToRadians)(frames[i].value)))
  {
  }

  // ---------------------------------------------------------------------------
  // The camera channels

  /** A camera whose field-of-view curve exists but has no key. */
  const KeylessFieldOfView := NoCurves.(fieldOfViewY := Some(AnimCurve([], t => 0.0)))

  /** The unguarded conversions fail exactly when a field-of-view or focal-length
      curve exists whose resampling gives no channel, and otherwise agree with the
      guarded ones. */
  lemma CameraCurvesGuardAgrees(c: LayerCurves, camera: Camera, n: Numerics, resample: Resampler, exportedFromMaya: bool)
    ensures CameraCurvesAsWritten(c, camera, n, resample, exportedFromMaya).Failure? <==>
      || (c.fieldOfViewY.Some? && ChannelFrames(c.fieldOfViewY, resample).None?)
      || (c.focalLength.Some? && ChannelFrames(c.focalLength, resample).None?)
    ensures CameraCurvesAsWritten(c, camera, n, resample, exportedFromMaya).Success? ==>
      CameraCurvesAsWritten(c, camera, n, resample, exportedFromMaya).value == CameraCurves(c, camera, n, resample, exportedFromMaya)
  {
  }

  /** A field-of-view curve without keys: the source dereferences the null channel,
      while the guarded conversion adds no channel for it. */
  lemma KeylessFieldOfViewFails(camera: Camera, n: Numerics, resample: Resampler, oneFrame: int, exportedFromMaya: bool)
    requires Resamples(resample, oneFrame)
    ensures CameraCurvesAsWritten(KeylessFieldOfView, camera, n, resample, exportedFromMaya) == Failure(NullReference)
    ensures CameraCurves(KeylessFieldOfView, camera, n, resample, exportedFromMaya) == []
  {
    SingleChannelNoneIff(KeylessFieldOfView.fieldOfViewY, resample, oneFrame);
  }

  // ---------------------------------------------------------------------------
  // Clip durations

  /** The position rewrite keeps every keyframe time, so Duration is the one the
      resampled channels give. */
  lemma TransformCurvesDuration(d: int, c: LayerCurves, nodeName: string, n: Numerics, resample: Resampler)
    ensures DurationAfter(DurationAfter(DurationAfter(d, Position(c, nodeName, resample)), Orientation(c, nodeName, n, resample)), Dilation(c, nodeName, resample))
         == DurationAfter(d, TransformCurves(c, nodeName, n, resample))
  {
    var p := Position(c, nodeName, resample);
    var o := Orientation(c, nodeName, n, resample);
    var s := Dilation(c, nodeName, resample);
    var m := Mapped(PositionName(nodeName), resample(c.translation.AsSeq()), n.transformPoint);
    DurationAfterConcat(d, p, o);
    DurationAfterConcat(d, p + o, s);
    AppendAssociative(p, o, s);
    MappedSameEnds(PositionName(nodeName), resample(c.translation.AsSeq()), n.transformPoint);
    SameEndsRefl(o + s);
    SameEndsConcat(p, m, o + s, o + s);
    DurationSameEnds(d, p + (o + s), m + (o + s));
  }

  /** The same for the camera channels: the field-of-view rewrites keep every
      keyframe time. */
  lemma CameraCurvesDuration(d: int, c: LayerCurves, camera: Camera, n: Numerics, resample: Resampler, exportedFromMaya: bool)
    ensures DurationAfter(DurationAfter(d, Plain(FieldOfViewName, ChannelFrames(c.fieldOfViewY, resample))),
                          Plain(FieldOfViewName, ChannelFrames(c.focalLength, resample)))
         == DurationAfter(d, CameraCurves(c, camera, n, resample, exportedFromMaya))
  {
    var fov := Plain(FieldOfViewName, ChannelFrames(c.fieldOfViewY, resample));
    var converted := Plain(FieldOfViewName, FovFrames(ChannelFrames(c.fieldOfViewY, resample), exportedFromMaya));
    var fl := Plain(FieldOfViewName, ChannelFrames(c.focalLength, resample));
    var flConverted := Mapped(FieldOfViewName, ChannelFrames(c.focalLength, resample), FovFromFocalLength(camera.filmHeight, n));
    assert SameEnds(fov, converted);
    MappedSameEnds(FieldOfViewName, ChannelFrames(c.focalLength, resample), FovFromFocalLength(camera.filmHeight, n));
    SameEndsConcat(fov, converted, fl, flConverted);
    DurationSameEnds(d, fov + fl, converted + flConverted);
    DurationAfterConcat(d, fov, fl);
  }

  // ---------------------------------------------------------------------------
  // SetPivotStateRecursive

  /** Both pivot sets made active; nothing else changes. */
  function Activated(p: NodePivots): NodePivots {
    p.(source := p.source.(state := PivotActive), destination := p.destination.(state := PivotActive))
  }

  /** The rule SetPivotStateRecursive applies to every node. */
  function ActivationRule(): PivotRule {
    (node, p) => Activated(p)
  }

  /** With distinct node ids, every node of the tree has both pivot sets active and
      every other part of its pivot data unchanged, and a node outside the tree keeps
      its pivot data. */
  lemma ActivationMeans(pivots: map<nat, NodePivots>, nodes: seq<Node>)
    requires UniqueIds(nodes)
    ensures forall i :: 0 <= i < |nodes| && nodes[i].id in pivots ==>
      var before := pivots[nodes[i].id];
      var after := PivotsAfter(pivots, nodes, ActivationRule())[nodes[i].id];
      && after.source.state == PivotActive && after.destination.state == PivotActive
      && after.source == before.source.(state := PivotActive)
      && after.destination == before.destination.(state := PivotActive)
      && after.rotationActive == before.rotationActive
    ensures forall id :: id in pivots && (forall i :: 0 <= i < |nodes| ==> nodes[i].id != id) ==>
      PivotsAfter(pivots, nodes, ActivationRule())[id] == pivots[id]
  {
    PivotsAfterEachNode(pivots, nodes, ActivationRule());
  }

  // ---------------------------------------------------------------------------
  // The converter

  class AnimationConverter {
    const scene: Scene
    const exportedFromMaya: bool
    const sceneMapping: SceneMapping
    /** What ProcessAnimationCurveFloatsHelper computes from a curve group at the
        scene's frame length. */
    ghost const resample: Resampler
    /** The curves the per-node ProcessAnimation adds for a node of a layer. */
    ghost const nodeCurves: Option<LayerId> -> Node -> seq<CurveValue>

    constructor (sceneMapping: SceneMapping)
      ensures this.sceneMapping == sceneMapping && scene == sceneMapping.scene
      ensures exportedFromMaya == (sceneMapping.scene.applicationName == "Maya")
      ensures resample == ParadoxResampling(sceneMapping.scene.oneFrame)
      ensures sceneMapping.scene.oneFrame > 0 ==> Valid() && CurvesValid()
    {
      this.sceneMapping := sceneMapping;
      scene := sceneMapping.scene;
      exportedFromMaya := sceneMapping.scene.applicationName == "Maya";
      resample := ParadoxResampling(sceneMapping.scene.oneFrame);
      nodeCurves := layer => NodeCurvesOf(layer, sceneMapping.numerics, ParadoxResampling(sceneMapping.scene.oneFrame),
                                          sceneMapping.scene.applicationName == "Maya");
    }

    /** The scene's frame length is positive, so `resample` is the Paradox resampler. */
    ghost predicate Valid() {
      Resamples(resample, scene.oneFrame)
    }

    /** `nodeCurves` gives each node's curves. */
    ghost predicate CurvesValid() {
      forall layer, node {:trigger NodeCurves(layer, node, sceneMapping.numerics, resample, exportedFromMaya)} ::
        nodeCurves(layer)(node) == NodeCurves(layer, node, sceneMapping.numerics, resample, exportedFromMaya)
    }

    /** The constructor's argument check: a null scene mapping is an
        ArgumentNullException. */
    static method Create(sceneMapping: SceneMapping?) returns (r: Result<AnimationConverter, ConverterError>)
      ensures sceneMapping == null <==> r == Failure(ArgumentNull("sceneMapping"))
      ensures r.Success? ==> fresh(r.value) && r.value.sceneMapping == sceneMapping
    {
      if sceneMapping == null {
        return Failure(ArgumentNull("sceneMapping"));
      }
      var converter := new AnimationConverter(sceneMapping);
      return Success(converter);
    }

    /** HasAnimationData: true when there is a stack and every stack's first layer
        animates the tree; the loop stops at the first stack that does not. */
    method HasAnimationData() returns (r: bool)
      ensures r == AllStacksAnimated(scene.stacks, scene.root)
    {
      var animStackCount := |scene.stacks|;
      if animStackCount > 0 {
        var check := true;
        var i := 0;
        while i < animStackCount && check
          invariant 0 <= i <= animStackCount
          invariant check == forall j :: 0 <= j < i ==> CheckAnimationData(scene.stacks[j].FirstLayer(), scene.root)
        {
          var animLayer := scene.stacks[i].FirstLayer();
          check := check && CheckAnimationData(animLayer, scene.root);
          i := i + 1;
        }
        return check;
      }
      return false;
    }

    /** ExtractAnimationNodesNoInit: null without stacks, otherwise a new list of
        the listed nodes of every stack in turn. */
    method ExtractAnimationNodesNoInit() returns (animationNodes: NameList?)
      ensures |scene.stacks| == 0 <==> animationNodes == null
      ensures animationNodes != null ==> fresh(animationNodes) && animationNodes.items == StackNames(AllComponents, scene.stacks, scene.root)
    {
      var animStackCount := |scene.stacks|;
      animationNodes := null;
      if animStackCount > 0 {
        animationNodes := new NameList();
        for i := 0 to animStackCount
          invariant animationNodes.items == StackNames(AllComponents, scene.stacks[..i], scene.root)
        {
          var animLayer := scene.stacks[i].FirstLayer();
          assert scene.stacks[..i + 1][..i] == scene.stacks[..i];
          GetAnimationNodes(animLayer, scene.root, animationNodes);
        }
        assert scene.stacks[..animStackCount] == scene.stacks;
      }
    }

    /** GetAnimationNodes: appends the names of the listed nodes of the subtree in
        depth-first pre-order. */
    method GetAnimationNodes(animLayer: Option<LayerId>, node: Node, animationNodes: NameList)
      modifies animationNodes
      ensures animationNodes.items == old(animationNodes.items) + ListedNames(AllComponents, animLayer, Preorder(node))
      decreases node, 1
    {
      ghost var start := animationNodes.items;
      ghost var own := if Listed(AllComponents, animLayer, node) then [node.name] else [];
      ghost var rest := ChildNames(AllComponents, animLayer, node.children, |node.children|);
      ListNode(animLayer, node, animationNodes);
      ListChildren(animLayer, node, animationNodes);
      assert animationNodes.items == start + own + rest;
      assert node.children[..|node.children|] == node.children;
      ChildNamesAll(AllComponents, animLayer, node.children, |node.children|);
      ListedPreorder(AllComponents, animLayer, node);
      AppendAssociative(start, own, rest);
    }

    /** The loop of GetAnimationNodes over the node's children, in index order. */
    method ListChildren(animLayer: Option<LayerId>, node: Node, animationNodes: NameList)
      modifies animationNodes
      ensures animationNodes.items == old(animationNodes.items) + ChildNames(AllComponents, animLayer, node.children, |node.children|)
      decreases node, 0
    {
      for i := 0 to |node.children|
        invariant animationNodes.items == old(animationNodes.items) + ChildNames(AllComponents, animLayer, node.children, i)
      {
        ghost var start := old(animationNodes.items);
        ghost var done := ChildNames(AllComponents, animLayer, node.children, i);
        GetAnimationNodes(animLayer, node.children[i], animationNodes);
        AppendAssociative(start, done, ListedNames(AllComponents, animLayer, Preorder(node.children[i])));
      }
    }

    /** The node's own part of GetAnimationNodes: a transform counts when all three
        of its component curves exist. The camera test starts true and only ever
        conjoins curves it has just found, so every camera node is listed. */
    method ListNode(animLayer: Option<LayerId>, node: Node, animationNodes: NameList)
      modifies animationNodes
      ensures animationNodes.items == old(animationNodes.items) + (if Listed(AllComponents, animLayer, node) then [node.name] else [])
    {
      var nodeName := node.name;
      var c := CurvesOf(node, animLayer);
      var checkTranslation := true;
      checkTranslation := checkTranslation && c.translation.x.Some?;
      checkTranslation := checkTranslation && c.translation.y.Some?;
      checkTranslation := checkTranslation && c.translation.z.Some?;
      var checkRotation := true;
      checkRotation := checkRotation && c.rotation.x.Some?;
      checkRotation := checkRotation && c.rotation.y.Some?;
      checkRotation := checkRotation && c.rotation.z.Some?;
      var checkScale := true;
      checkScale := checkScale && c.scaling.x.Some?;
      checkScale := checkScale && c.scaling.y.Some?;
      checkScale := checkScale && c.scaling.z.Some?;
      if checkTranslation || checkRotation || checkScale {
        animationNodes.Add(nodeName);
      } else {
        var checkCamera := true;
        var camera := node.Camera();
        if camera.Some? {
          if c.fieldOfViewY.Some? {
            checkCamera := checkCamera && c.fieldOfViewY.Some?;
          }
          if c.focalLength.Some? {
            checkCamera := checkCamera && c.focalLength.Some?;
          }
          if checkCamera {
            animationNodes.Add(nodeName);
          }
        }
      }
    }

    /** ProcessAnimationCurveVector: resamples the curves into a new cubic curve,
        adds it to the clip under the name and raises Duration to its last time;
        nothing happens when the resampler reports no animation. */
    method ProcessAnimationCurveVector(animationClip: AnimationClip, name: string, numCurves: nat, curves: seq<Option<AnimCurve>>)
      returns (animationCurve: AnimationCurve?)
      requires Valid() && numCurves <= 3 && numCurves <= |curves|
      modifies animationClip
      ensures animationCurve == null <==> resample(curves[..numCurves]).None?
      ensures animationCurve == null ==> animationClip.curves == old(animationClip.curves)
      ensures animationCurve != null ==>
        && fresh(animationCurve)
        && animationCurve.interpolationType == CubicCurve
        && animationClip.curves == old(animationClip.curves) + [NamedCurve(name, animationCurve)]
      ensures animationClip.Contents() == old(animationClip.Contents()) + Plain(name, resample(curves[..numCurves]))
      ensures animationClip.duration == DurationAfter(old(animationClip.duration), Plain(name, resample(curves[..numCurves])))
      ensures old(animationClip.Distinct()) ==> animationClip.Distinct()
    {
      ghost var before := animationClip.Contents();
      var keyFrames := ParadoxResampler.ProcessAnimationCurveFloatsHelper(curves, numCurves, scene.oneFrame);
      if keyFrames.None? {
        return null;
      }
      animationCurve := new AnimationCurve();
      // Switch to cubic implicit interpolation mode for Vector3
      animationCurve.interpolationType := CubicCurve;
      AddKeyFrames(animationCurve, keyFrames.value);
      assert animationCurve.keyFrames == keyFrames.value;
      assert animationClip.Contents() == before;
      AddCurveWithDuration(animationClip, name, animationCurve);
    }

    /** ProcessAnimationCurveRotation: resamples the Euler curves, turns the angles
        into radians, and adds a new curve of their quaternions at the same times;
        Duration is raised to the last Euler keyframe time. */
    method ProcessAnimationCurveRotation(animationClip: AnimationClip, name: string, curves: seq<Option<AnimCurve>>)
      returns (animationCurve: AnimationCurve?)
      requires Valid() && |curves| == 3
      modifies animationClip
      ensures animationCurve == null <==> resample(curves).None?
      ensures animationCurve == null ==> animationClip.curves == old(animationClip.curves)
      ensures animationCurve != null ==>
        && fresh(animationCurve)
        && animationClip.curves == old(animationClip.curves) + [NamedCurve(name, animationCurve)]
      ensures animationClip.Contents() == old(animationClip.Contents()) + Rotation(name, resample(curves), sceneMapping.numerics)
      ensures animationClip.duration == DurationAfter(old(animationClip.duration), Rotation(name, resample(curves), sceneMapping.numerics))
      ensures old(animationClip.Distinct()) ==> animationClip.Distinct()
    {
      ghost var before := animationClip.Contents();
      var keyFrames := ParadoxResampler.ProcessAnimationCurveFloatsHelper(curves, 3, scene.oneFrame);
      assert curves[..3] == curves;
      if keyFrames.None? {
        assert Rotation(name, keyFrames, sceneMapping.numerics) == [];
        assert before + [] == before;
        return null;
      }
      // Convert euler angles to radians
      var frames := DegreesToRadiansFrames(keyFrames.value);
      animationCurve := QuaternionCurve(frames, sceneMapping.numerics.convertedEulerToQuaternion);
      assert animationCurve.keyFrames == RotationFrames(keyFrames.value, sceneMapping.numerics);
      assert Rotation(name, keyFrames, sceneMapping.numerics) == [CurveValue(name, animationCurve.keyFrames)];
      assert animationClip.Contents() == before;
      AddCurveWithDuration(animationClip, name, animationCurve);
    }

    /** ComputeFovFromFL: every focal length becomes a vertical field of view in
        radians. */
    method ComputeFovFromFL(channel: AnimationCurve, camera: Camera)
      modifies channel
      ensures channel.keyFrames == MapValues(old(channel.keyFrames), FovFromFocalLength(camera.filmHeight, sceneMapping.numerics))
      ensures channel.interpolationType == old(channel.interpolationType)
    {
      RewriteValues(channel, FovFromFocalLength(camera.filmHeight, sceneMapping.numerics));
    }

    /** The three transform channels of a node, appended to the clip in the order
        translation, rotation, scaling; the translation curve is returned for the
        value rewrite that follows. */
    method AddTransformCurves(animationClip: AnimationClip, c: LayerCurves, nodeName: string)
      returns (translationCurve: AnimationCurve?)
      requires Valid() && animationClip.Distinct()
      modifies animationClip
      ensures animationClip.Contents() == old(animationClip.Contents()) + Position(c, nodeName, resample)
        + Orientation(c, nodeName, sceneMapping.numerics, resample) + Dilation(c, nodeName, resample)
      ensures animationClip.duration == DurationAfter(DurationAfter(DurationAfter(old(animationClip.duration),
        Position(c, nodeName, resample)), Orientation(c, nodeName, sceneMapping.numerics, resample)), Dilation(c, nodeName, resample))
      ensures animationClip.Distinct()
      ensures translationCurve == null <==> resample(c.translation.AsSeq()).None?
      ensures translationCurve != null ==>
        && fresh(translationCurve)
        && |old(animationClip.curves)| < |animationClip.curves|
        && animationClip.curves[|old(animationClip.curves)|] == NamedCurve(PositionName(nodeName), translationCurve)
    {
      assert c.translation.AsSeq()[..3] == c.translation.AsSeq();
      assert c.scaling.AsSeq()[..3] == c.scaling.AsSeq();
      translationCurve := ProcessAnimationCurveVector(animationClip, PositionName(nodeName), 3, c.translation.AsSeq());
      ghost var afterTranslation := animationClip.curves;
      var rotationCurve := ProcessAnimationCurveRotation(animationClip, RotationName(nodeName), c.rotation.AsSeq());
      var scalingCurve := ProcessAnimationCurveVector(animationClip, ScaleName(nodeName), 3, c.scaling.AsSeq());
      if translationCurve != null {
        assert animationClip.curves[|old(animationClip.curves)|] == afterTranslation[|old(animationClip.curves)|];
      }
    }

    /** The transform part of the per-node ProcessAnimation: the three channels are
        appended, then every translation value is moved by the matrix modifier. */
    method ProcessTransformCurves(animationClip: AnimationClip, c: LayerCurves, nodeName: string)
      requires Valid() && animationClip.Distinct()
      modifies animationClip
      ensures animationClip.Contents() == old(animationClip.Contents()) + TransformCurves(c, nodeName, sceneMapping.numerics, resample)
      ensures animationClip.duration == DurationAfter(old(animationClip.duration), TransformCurves(c, nodeName, sceneMapping.numerics, resample))
      ensures animationClip.Distinct()
    {
      var numerics := sceneMapping.numerics;
      ghost var before := animationClip.Contents();
      ghost var p := Position(c, nodeName, resample);
      ghost var o := Orientation(c, nodeName, numerics, resample);
      ghost var s := Dilation(c, nodeName, resample);
      var translationCurve := AddTransformCurves(animationClip, c, nodeName);
      AppendAssociative(before + p, o, s);
      RewriteCurveAt(animationClip, translationCurve, numerics.transformPoint,
        before, PositionName(nodeName), resample(c.translation.AsSeq()), o + s);
      AppendAssociative(before, Mapped(PositionName(nodeName), resample(c.translation.AsSeq()), numerics.transformPoint), o + s);
      TransformCurvesDuration(old(animationClip.duration), c, nodeName, numerics, resample);
    }

    /** One field-of-view channel: when the camera has the curve, it is resampled
        into a new curve of the clip. */
    method ProcessCameraChannel(animationClip: AnimationClip, curve: Option<AnimCurve>)
      returns (channel: AnimationCurve?)
      requires Valid()
      modifies animationClip
      ensures channel == null <==> ChannelFrames(curve, resample).None?
      ensures channel == null ==> animationClip.curves == old(animationClip.curves)
      ensures channel != null ==>
        && fresh(channel)
        && animationClip.curves == old(animationClip.curves) + [NamedCurve(FieldOfViewName, channel)]
      ensures animationClip.Contents() == old(animationClip.Contents()) + Plain(FieldOfViewName, ChannelFrames(curve, resample))
      ensures animationClip.duration == DurationAfter(old(animationClip.duration), Plain(FieldOfViewName, ChannelFrames(curve, resample)))
      ensures old(animationClip.Distinct()) ==> animationClip.Distinct()
    {
      if curve.Some? {
        assert [curve][..1] == [curve];
        channel := ProcessAnimationCurveVector(animationClip, FieldOfViewName, 1, [curve]);
      } else {
        channel := null;
        assert animationClip.Contents() + [] == animationClip.Contents();
      }
    }

    /** The FieldOfViewY part of the per-node ProcessAnimation: the channel's angles
        are turned into radians, then multiplied by 0.6 unless the file came from
        Maya. */
    method ProcessFieldOfView(animationClip: AnimationClip, c: LayerCurves)
      requires Valid() && animationClip.Distinct()
      modifies animationClip
      ensures animationClip.Contents() == old(animationClip.Contents())
        + Plain(FieldOfViewName, FovFrames(ChannelFrames(c.fieldOfViewY, resample), exportedFromMaya))
      ensures animationClip.duration == DurationAfter(old(animationClip.duration), Plain(FieldOfViewName, ChannelFrames(c.fieldOfViewY, resample)))
      ensures animationClip.Distinct()
    {
      ghost var before := animationClip.Contents();
      ghost var frames := ChannelFrames(c.fieldOfViewY, resample);
      var fovAnimChannel := ProcessCameraChannel(animationClip, c.fieldOfViewY);
      // ConvertDegreeToRadians, only on a channel that exists
      RewriteLastChannel(animationClip, fovAnimChannel, Scale(DegreesToRadians), before, FieldOfViewName, frames);
      if !exportedFromMaya {
        // MultiplyChannel by 0.6, only on a channel that exists
        RewriteLastChannel(animationClip, fovAnimChannel, Scale(NonMayaFovFactor), before, FieldOfViewName,
          MapFrames(frames, Scale(DegreesToRadians)));
      }
    }

    /** The camera part of the per-node ProcessAnimation: the field-of-view channel,
        then the focal-length channel turned into a field of view. */
    method ProcessCameraCurves(animationClip: AnimationClip, c: LayerCurves, camera: Camera)
      requires Valid() && animationClip.Distinct()
      modifies animationClip
      ensures animationClip.Contents() == old(animationClip.Contents()) + CameraCurves(c, camera, sceneMapping.numerics, resample, exportedFromMaya)
      ensures animationClip.duration == DurationAfter(old(animationClip.duration), CameraCurves(c, camera, sceneMapping.numerics, resample, exportedFromMaya))
      ensures animationClip.Distinct()
    {
      ghost var before := animationClip.Contents();
      ProcessFieldOfView(animationClip, c);
      ghost var fov := Plain(FieldOfViewName, FovFrames(ChannelFrames(c.fieldOfViewY, resample), exportedFromMaya));
      var flAnimChannel := ProcessCameraChannel(animationClip, c.focalLength);
      // ComputeFovFromFL, only on a channel that exists
      RewriteLastCurve(animationClip, flAnimChannel, FovFromFocalLength(camera.filmHeight, sceneMapping.numerics),
        before + fov, FieldOfViewName, ChannelFrames(c.focalLength, resample));
      AppendAssociative(before, fov, Mapped(FieldOfViewName, ChannelFrames(c.focalLength, resample), FovFromFocalLength(camera.filmHeight, sceneMapping.numerics)));
      CameraCurvesDuration(old(animationClip.duration), c, camera, sceneMapping.numerics, resample, exportedFromMaya);
    }

    /** The node's own part of the per-node ProcessAnimation: its transform curves
        and, for a camera, its camera curves. */
    method ProcessNodeCurves(animationClip: AnimationClip, animLayer: Option<LayerId>, node: Node)
      requires Valid() && animationClip.Distinct()
      modifies animationClip
      ensures animationClip.Contents() == old(animationClip.Contents()) + NodeCurves(animLayer, node, sceneMapping.numerics, resample, exportedFromMaya)
      ensures animationClip.duration == DurationAfter(old(animationClip.duration), NodeCurves(animLayer, node, sceneMapping.numerics, resample, exportedFromMaya))
      ensures animationClip.Distinct()
    {
      var c := CurvesOf(node, animLayer);
      ghost var before := animationClip.Contents();
      ghost var d := animationClip.duration;
      ProcessTransformCurves(animationClip, c, node.name);
      var camera := node.Camera();
      if camera.Some? {
        ProcessCameraAfterTransform(animationClip, c, node.name, camera.value, before, d);
      } else {
        assert TransformCurves(c, node.name, sceneMapping.numerics, resample) + [] == TransformCurves(c, node.name, sceneMapping.numerics, resample);
      }
    }

    /** The camera curves of a camera node, appended after its transform curves. */
    method ProcessCameraAfterTransform(animationClip: AnimationClip, c: LayerCurves, nodeName: string, camera: Camera,
                                       ghost before: seq<CurveValue>, ghost d: int)
      requires Valid() && animationClip.Distinct()
      requires animationClip.Contents() == before + TransformCurves(c, nodeName, sceneMapping.numerics, resample)
      requires animationClip.duration == DurationAfter(d, TransformCurves(c, nodeName, sceneMapping.numerics, resample))
      modifies animationClip
      ensures animationClip.Contents() == before + (TransformCurves(c, nodeName, sceneMapping.numerics, resample)
        + CameraCurves(c, camera, sceneMapping.numerics, resample, exportedFromMaya))
      ensures animationClip.duration == DurationAfter(d, TransformCurves(c, nodeName, sceneMapping.numerics, resample)
        + CameraCurves(c, camera, sceneMapping.numerics, resample, exportedFromMaya))
      ensures animationClip.Distinct()
    {
      ghost var transform := TransformCurves(c, nodeName, sceneMapping.numerics, resample);
      ProcessCameraCurves(animationClip, c, camera);
      ghost var cameraCurves := CameraCurves(c, camera, sceneMapping.numerics, resample, exportedFromMaya);
      AppendAssociative(before, transform, cameraCurves);
      DurationAfterConcat(d, transform, cameraCurves);
    }

    /** ProcessNodeCurves through the `nodeCurves` handle. */
    method AddNodeCurves(animationClip: AnimationClip, animLayer: Option<LayerId>, node: Node)
      requires Valid() && CurvesValid() && animationClip.Distinct()
      modifies animationClip
      ensures animationClip.Contents() == old(animationClip.Contents()) + nodeCurves(animLayer)(node)
      ensures animationClip.duration == DurationAfter(old(animationClip.duration), nodeCurves(animLayer)(node))
      ensures animationClip.Distinct()
    {
      ProcessNodeCurves(animationClip, animLayer, node);
      assert nodeCurves(animLayer)(node) == NodeCurves(animLayer, node, sceneMapping.numerics, resample, exportedFromMaya);
    }

    /** The per-node ProcessAnimation: the node's curves are appended to the clip,
        then the children are processed in order; the clip gains the curves of the
        subtree's nodes in depth-first pre-order. */
    method ProcessNodeAnimation(animationClip: AnimationClip, animLayer: Option<LayerId>, node: Node)
      requires Valid() && CurvesValid() && animationClip.Distinct()
      modifies animationClip
      ensures animationClip.Contents() == old(animationClip.Contents()) + FlatMap(Preorder(node), nodeCurves(animLayer))
      ensures animationClip.duration == DurationAfter(old(animationClip.duration), FlatMap(Preorder(node), nodeCurves(animLayer)))
      ensures animationClip.Distinct()
      decreases node, 1
    {
      ghost var before := animationClip.Contents();
      ghost var own := nodeCurves(animLayer)(node);
      AddNodeCurves(animationClip, animLayer, node);
      ghost var d := animationClip.duration;
      ProcessChildAnimations(animationClip, animLayer, node);
      ghost var children := ChildFlatMap(node.children, |node.children|, nodeCurves(animLayer));
      assert node.children[..|node.children|] == node.children;
      ChildFlatMapAll(node.children, |node.children|, nodeCurves(animLayer));
      FlatMapPreorder(node, nodeCurves(animLayer));
      AppendAssociative(before, own, children);
      DurationAfterConcat(old(animationClip.duration), own, children);
    }

    /** The loop of the per-node ProcessAnimation over the node's children, in
        index order. */
    method ProcessChildAnimations(animationClip: AnimationClip, animLayer: Option<LayerId>, node: Node)
      requires Valid() && CurvesValid() && animationClip.Distinct()
      modifies animationClip
      ensures animationClip.Contents() == old(animationClip.Contents()) + ChildFlatMap(node.children, |node.children|, nodeCurves(animLayer))
      ensures animationClip.duration == DurationAfter(old(animationClip.duration), ChildFlatMap(node.children, |node.children|, nodeCurves(animLayer)))
      ensures animationClip.Distinct()
      decreases node, 0
    {
      for i := 0 to |node.children|
        invariant animationClip.Distinct()
        invariant animationClip.Contents() == old(animationClip.Contents()) + ChildFlatMap(node.children, i, nodeCurves(animLayer))
        invariant animationClip.duration == DurationAfter(old(animationClip.duration), ChildFlatMap(node.children, i, nodeCurves(animLayer)))
      {
        ghost var done := ChildFlatMap(node.children, i, nodeCurves(animLayer));
        ProcessNodeAnimation(animationClip, animLayer, node.children[i]);
        ghost var child := FlatMap(Preorder(node.children[i]), nodeCurves(animLayer));
        AppendAssociative(old(animationClip.Contents()), done, child);
        DurationAfterConcat(old(animationClip.duration), done, child);
      }
    }

    /** SetPivotStateRecursive: both pivot sets of the node are made active, then
        those of each child's subtree in index order. */
    method SetPivotStateRecursive(node: Node)
      requires forall m :: m in Preorder(node) ==> m.id in scene.pivots
      modifies scene
      ensures scene.pivots == PivotsAfter(old(scene.pivots), Preorder(node), ActivationRule())
      ensures scene.pivotEvents == old(scene.pivotEvents)
      decreases node, 1
    {
      var p := scene.pivots[node.id];
      p := p.(source := p.source.(state := PivotActive));
      p := p.(destination := p.destination.(state := PivotActive));
      scene.pivots := scene.pivots[node.id := p];
      SetChildPivotStates(node);
      assert node.children[..|node.children|] == node.children;
      ChildPivotsAll(old(scene.pivots)[node.id := Activated(old(scene.pivots)[node.id])], node.children, |node.children|, ActivationRule());
      PivotsAfterPreorder(old(scene.pivots), node, ActivationRule());
    }

    /** The loop of SetPivotStateRecursive over the node's children. */
    method SetChildPivotStates(node: Node)
      requires forall m :: m in Preorder(node) ==> m.id in scene.pivots
      modifies scene
      ensures scene.pivots == ChildPivots(old(scene.pivots), node.children, |node.children|, ActivationRule())
      ensures scene.pivotEvents == old(scene.pivotEvents)
      decreases node, 0
    {
      for i := 0 to |node.children|
        invariant scene.pivots == ChildPivots(old(scene.pivots), node.children, i, ActivationRule())
        invariant scene.pivotEvents == old(scene.pivotEvents)
      {
        PreorderChild(node, i);
        SetPivotStateRecursive(node.children[i]);
      }
    }

    /** The curves `nodeCurves` gives are those NodeCurves gives. */
    lemma NodeCurvesAgree(layer: Option<LayerId>, nodes: seq<Node>)
      requires CurvesValid()
      ensures FlatMap(nodes, nodeCurves(layer)) == FlatMap(nodes, NodeCurvesOf(layer, sceneMapping.numerics, resample, exportedFromMaya))
    {
      forall m | m in nodes
        ensures nodeCurves(layer)(m) == NodeCurvesOf(layer, sceneMapping.numerics, resample, exportedFromMaya)(m)
      {
        assert NodeCurvesOf(layer, sceneMapping.numerics, resample, exportedFromMaya)(m)
            == NodeCurves(layer, m, sceneMapping.numerics, resample, exportedFromMaya);
      }
      FlatMapCongruent(nodes, nodeCurves(layer), NodeCurvesOf(layer, sceneMapping.numerics, resample, exportedFromMaya));
    }

    /** The body of ProcessAnimation's loop for one animation stack. */
    method ProcessStack(animationClip: AnimationClip, i: nat)
      requires Valid() && CurvesValid() && animationClip.Distinct()
      requires i < |scene.stacks|
      requires forall m :: m in Preorder(scene.root) ==> m.id in scene.pivots
      modifies scene, animationClip
      ensures animationClip.Distinct()
      ensures animationClip.Contents() == old(animationClip.Contents()) + FlatMap(Preorder(scene.root), nodeCurves(scene.stacks[i].FirstLayer()))
      ensures animationClip.duration == DurationAfter(old(animationClip.duration), FlatMap(Preorder(scene.root), nodeCurves(scene.stacks[i].FirstLayer())))
      ensures scene.pivots == PivotsAfter(old(scene.pivots), Preorder(scene.root), ActivationRule())
      ensures scene.pivotEvents == old(scene.pivotEvents) +
        [PivotEvent.ResetPivotSet(DestinationPivot),
         PivotEvent.ConvertPivotAnimationRecursive(i, DestinationPivot, 30.0),
         PivotEvent.ResetPivotSet(SourcePivot)]
    {
      var animLayer := scene.stacks[i].FirstLayer();
      ConvertStackPivots(i);
      ProcessNodeAnimation(animationClip, animLayer, scene.root);
      ghost var contents := animationClip.Contents();
      scene.ResetPivotSet(SourcePivot);
      assert animationClip.Contents() == contents;
    }

    /** The pivot part of one stack before its curves are read: the destination
        pivots are reset, every node's pivot sets are made active, and the pivot
        animation is converted at 30 frames per second. */
    method ConvertStackPivots(i: nat)
      requires forall m :: m in Preorder(scene.root) ==> m.id in scene.pivots
      modifies scene
      ensures scene.pivots == PivotsAfter(old(scene.pivots), Preorder(scene.root), ActivationRule())
      ensures scene.pivotEvents == old(scene.pivotEvents) +
        [PivotEvent.ResetPivotSet(DestinationPivot), PivotEvent.ConvertPivotAnimationRecursive(i, DestinationPivot, 30.0)]
    {
      scene.ResetPivotSet(DestinationPivot);
      SetPivotStateRecursive(scene.root);
      scene.ConvertPivotAnimationRecursive(i, DestinationPivot, 30.0);
    }

    /** ProcessAnimation: a new clip; for the first animation stack only, the
        destination pivots are reset, every node's pivot sets are made active, the
        pivot animation is converted at 30 frames per second, the curves of the first
        layer are added in depth-first pre-order, and the pivot set is reset to the
        source. A clip without curves is returned as null. */
    method ProcessAnimation() returns (animationClip: AnimationClip?)
      requires scene.Valid() && Valid() && CurvesValid()
      modifies scene
      ensures animationClip == null <==> |SceneCurves(scene.stacks, scene.root, sceneMapping.numerics, resample, exportedFromMaya)| == 0
      ensures animationClip != null ==> fresh(animationClip)
      ensures animationClip != null ==>
        animationClip.Value() == ClipValue(SceneCurves(scene.stacks, scene.root, sceneMapping.numerics, resample, exportedFromMaya),
                                           DurationAfter(0, SceneCurves(scene.stacks, scene.root, sceneMapping.numerics, resample, exportedFromMaya)))
      ensures scene.pivots ==
        if |scene.stacks| == 0 then old(scene.pivots)
        else PivotsAfter(old(scene.pivots), Preorder(scene.root), ActivationRule())
      ensures scene.pivotEvents == old(scene.pivotEvents) +
        if |scene.stacks| == 0 then []
        else [PivotEvent.ResetPivotSet(DestinationPivot),
              PivotEvent.ConvertPivotAnimationRecursive(0, DestinationPivot, 30.0),
              PivotEvent.ResetPivotSet(SourcePivot)]
    {
      var clip := new AnimationClip();
      var animStackCount := |scene.stacks|;
      // Only one animation stack is supported.
      if animStackCount > 1 {
        animStackCount := 1;
      }
      for i := 0 to animStackCount
        invariant fresh(clip) && clip.Distinct()
        invariant i == 0 ==>
          && clip.Contents() == [] && clip.duration == 0
          && scene.pivots == old(scene.pivots) && scene.pivotEvents == old(scene.pivotEvents)
        invariant i == 1 ==>
          && clip.Contents() == FlatMap(Preorder(scene.root), nodeCurves(scene.stacks[0].FirstLayer()))
          && clip.duration == DurationAfter(0, FlatMap(Preorder(scene.root), nodeCurves(scene.stacks[0].FirstLayer())))
          && scene.pivots == PivotsAfter(old(scene.pivots), Preorder(scene.root), ActivationRule())
          && scene.pivotEvents == old(scene.pivotEvents) +
               [PivotEvent.ResetPivotSet(DestinationPivot),
                PivotEvent.ConvertPivotAnimationRecursive(0, DestinationPivot, 30.0),
                PivotEvent.ResetPivotSet(SourcePivot)]
      {
        ProcessStack(clip, i);
      }
      if animStackCount > 0 {
        NodeCurvesAgree(scene.stacks[0].FirstLayer(), Preorder(scene.root));
      }
      animationClip := clip;
      if |clip.curves| == 0 {
        animationClip := null;
      }
    }
  }
}
