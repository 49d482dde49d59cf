/** The slice of the FBX SDK scene that the animation importers read: animation
    curves with their keys, the node hierarchy with per-layer curves and node
    attributes, animation stacks, the per-node pivot configuration, and the
    floating-point maths the importers delegate to the SDK and to the engine's
    mathematics library (left uninterpreted). */
module Fbx {
  import opened Wrappers

  /** FbxTime is a signed 64-bit tick count; the SDK's infinite times are its extremes. */
  const TimeInfinite: int := 0x7fff_ffff_ffff_ffff
  const TimeMinusInfinite: int := -0x8000_0000_0000_0000

  /** A key time strictly between the two sentinel values. */
  predicate IsFiniteTime(t: int) {
    TimeMinusInfinite < t < TimeInfinite
  }

  /** FbxAnimCurveDef::EInterpolationType; only Constant matters to the importers. */
  datatype Interpolation = Constant | Linear | Cubic

  datatype CurveKey = CurveKey(time: int, interpolation: Interpolation)

  /** An FbxAnimCurve: its keys (KeyGetCount, KeyGetTime, KeyGetInterpolation) and
      its evaluator (Evaluate), which is SDK code and left uninterpreted. */
  datatype AnimCurve = AnimCurve(keys: seq<CurveKey>, evaluate: int -> real)

  predicate HasKeys(c: Option<AnimCurve>) {
    c.Some? && |c.value.keys| > 0
  }

  /** What the SDK guarantees of a curve: finite key times in time order. */
  predicate WellFormedCurve(c: AnimCurve) {
    && (forall k :: 0 <= k < |c.keys| ==> IsFiniteTime(c.keys[k].time))
    && (forall j, k :: 0 <= j <= k < |c.keys| ==> c.keys[j].time <= c.keys[k].time)
  }

  predicate WellFormedCurves(cs: seq<Option<AnimCurve>>) {
    forall i :: 0 <= i < |cs| && cs[i].Some? ==> WellFormedCurve(cs[i].value)
  }

  /** The X, Y and Z component curves of one animated property; None is a null curve. */
  datatype Components = Components(x: Option<AnimCurve>, y: Option<AnimCurve>, z: Option<AnimCurve>)
  {
    function AsSeq(): (s: seq<Option<AnimCurve>>)
      ensures |s| == 3 && s[0] == x && s[1] == y && s[2] == z
    {
      [x, y, z]
    }

    /** All three component curves exist. */
    predicate Complete() {
      x.Some? && y.Some? && z.Some?
    }

    /** At least one component curve exists. */
    predicate AnyPresent() {
      x.Some? || y.Some? || z.Some?
    }
  }

  const NoComponents := Components(None, None, None)

  /** The curves of one node in one animation layer: LclTranslation, LclRotation and
      LclScaling components, and the camera's FieldOfViewY, FocalLength, NearPlane and
      FarPlane curves. */
  datatype LayerCurves = LayerCurves(
    translation: Components,
    rotation: Components,
    scaling: Components,
    fieldOfViewY: Option<AnimCurve>,
    focalLength: Option<AnimCurve>,
    nearPlane: Option<AnimCurve>,
    farPlane: Option<AnimCurve>)

  const NoCurves := LayerCurves(NoComponents, NoComponents, NoComponents, None, None, None, None)

  type LayerId = nat

  datatype Camera = Camera(filmHeight: real)

  datatype LightType = PointLight | DirectionalLight | SpotLight | AreaLight | VolumeLight

  datatype MarkerType = StandardMarker | OpticalMarker | EffectorFK | EffectorIK

  /** The node's attribute, as GetNodeAttribute, GetCamera, GetLight and GetMarker see it. */
  datatype NodeAttribute =
    | NoAttribute
    | Skeleton
    | CameraAttribute(camera: Camera)
    | LightAttribute(lightType: LightType)
    | MarkerAttribute(markerType: MarkerType)
    | OtherAttribute

  /** An FbxNode: the identity used for its pivot data, the display name the scene
      mapping gives it, its attribute, whether it has a look-at target, its curves in
      each animation layer, and its children in index order. */
  datatype Node = Node(
    id: nat,
    name: string,
    attribute: NodeAttribute,
    hasTarget: bool,
    curves: map<LayerId, LayerCurves>,
    children: seq<Node>)
  {
    function Camera(): Option<Camera> {
      if attribute.CameraAttribute? then Some(attribute.camera) else None
    }

    predicate IsLight() {
      attribute.LightAttribute?
    }
  }

  /** GetCurve(animLayer, ...) for every curve of a node; a missing layer has no curves. */
  function CurvesOf(node: Node, layer: Option<LayerId>): LayerCurves {
    if layer.Some? && layer.value in node.curves then node.curves[layer.value] else NoCurves
  }

  /** An FbxAnimStack and its layers; the importers only look at layer 0. */
  datatype AnimStack = AnimStack(layers: seq<LayerId>)
  {
    function FirstLayer(): Option<LayerId> {
      if |layers| > 0 then Some(layers[0]) else None
    }
  }

  /** The nodes of a subtree in depth-first pre-order: the node, then each child's
      subtree in child-index order. */
  function Preorder(node: Node): (s: seq<Node>)
    ensures |s| >= 1 && s[0] == node
    decreases node, 1
  {
    [node] + PreorderForest(node.children)
  }

  function PreorderForest(nodes: seq<Node>): seq<Node>
    decreases nodes, 0
  {
    if |nodes| == 0 then [] else PreorderForest(nodes[..|nodes| - 1]) + Preorder(nodes[|nodes| - 1])
  }

  lemma PreorderForestSnoc(nodes: seq<Node>, i: nat)
    requires i < |nodes|
    ensures PreorderForest(nodes[..i + 1]) == PreorderForest(nodes[..i]) + Preorder(nodes[i])
  {
    assert nodes[..i + 1][..i] == nodes[..i];
  }

  lemma PreorderForestPrefix(nodes: seq<Node>, j: nat)
    requires j <= |nodes|
    ensures forall m :: m in PreorderForest(nodes[..j]) ==> m in PreorderForest(nodes)
    decreases |nodes| - j
  {
    if j < |nodes| {
      PreorderForestSnoc(nodes, j);
      PreorderForestPrefix(nodes, j + 1);
    } else {
      assert nodes[..j] == nodes;
    }
  }

  /** A child's subtree is part of its parent's. */
  lemma PreorderChild(node: Node, i: nat)
    requires i < |node.children|
    ensures forall m :: m in Preorder(node.children[i]) ==> m in Preorder(node)
  {
    PreorderForestSnoc(node.children, i);
    PreorderForestPrefix(node.children, i + 1);
  }

  /** Four-component FBX vectors (FbxVector4); the three-argument constructor sets w to 1. */
  datatype Vec4 = Vec4(x: real, y: real, z: real, w: real)

  /** FbxVector4 lZero(0, 0, 0). */
  const ZeroPoint := Vec4(0.0, 0.0, 0.0, 1.0)

  datatype PivotState = PivotActive | PivotReference

  datatype RotationOrder = EulerXYZ | EulerXZY | EulerYZX | EulerYXZ | EulerZXY | EulerZYX | SphericXYZ

  /** One pivot set (source or destination) of a node. */
  datatype PivotSet = PivotSet(
    state: PivotState,
    rotationOrder: RotationOrder,
    preRotation: Vec4,
    postRotation: Vec4,
    rotationPivot: Vec4,
    scalingPivot: Vec4,
    rotationOffset: Vec4,
    scalingOffset: Vec4)

  /** The pivot data of a node: its source and destination pivot sets and its
      RotationActive flag. */
  datatype NodePivots = NodePivots(source: PivotSet, destination: PivotSet, rotationActive: bool)

  datatype PivotSetKind = SourcePivot | DestinationPivot

  /** Calls into the SDK's pivot machinery whose effect is not modelled. */
  datatype PivotEvent =
    | ResetPivotSet(target: PivotSetKind)
    | ConvertPivotAnimationRecursive(stack: nat, target: PivotSetKind, frameRate: real)

  /** Floating-point maths the importers delegate to the SDK and to the engine's
      mathematics library; left uninterpreted. */
  datatype Numerics = Numerics(
    // (Vector3)Vector4::Transform(Vector4(v, 1), MatrixModifier)
    transformPoint: seq<real> -> seq<real>,
    // Vector3::TransformNormal(v, rotation part of MatrixModifier)
    transformNormal: seq<real> -> seq<real>,
    // Xenko: Euler radians to the quaternion of Transpose(R) * Rx * Ry * Rz * R
    adjustedEulerToQuaternion: seq<real> -> seq<real>,
    // Paradox: Euler radians through ConvertMatrix and DecomposeXYZ to qX * qY * qZ
    convertedEulerToQuaternion: seq<real> -> seq<real>,
    // FocalLengthToVerticalFov(filmHeight, focalLength), in radians
    focalLengthToVerticalFov: (real, real) -> real,
    // post-rotation composed with a compensating rotation through V2M / M2V
    composePostRotation: (Vec4, Vec4) -> Vec4)

  /** The FbxScene as the importers see it. Its node tree, stacks and time mode are
      read-only here; the pivot data of its nodes (keyed by node id) is the shared
      mutable state, and the SDK pivot calls are recorded in order. */
  class Scene {
    const root: Node
    const stacks: seq<AnimStack>
    /** FbxTime::GetOneFrameValue of the global time mode. */
    const oneFrame: int
    /** GetDocumentInfo()->Original_ApplicationName. */
    const applicationName: string
    var pivots: map<nat, NodePivots>
    var pivotEvents: seq<PivotEvent>

    constructor (root: Node, stacks: seq<AnimStack>, oneFrame: int, applicationName: string, pivots: map<nat, NodePivots>)
      ensures this.root == root && this.stacks == stacks && this.oneFrame == oneFrame
      ensures this.applicationName == applicationName && this.pivots == pivots && pivotEvents == []
    {
      this.root := root;
      this.stacks := stacks;
      this.oneFrame := oneFrame;
      this.applicationName := applicationName;
      this.pivots := pivots;
      pivotEvents := [];
    }

    /** FbxNode::ResetPivotSet on the root; its effect on the pivot data is SDK code
        and is only recorded. */
    method ResetPivotSet(target: PivotSetKind)
      modifies this
      ensures pivots == old(pivots) && pivotEvents == old(pivotEvents) + [PivotEvent.ResetPivotSet(target)]
    {
      pivotEvents := pivotEvents + [PivotEvent.ResetPivotSet(target)];
    }

    /** FbxNode::ConvertPivotAnimationRecursive on the root; only recorded. */
    method ConvertPivotAnimationRecursive(stack: nat, target: PivotSetKind, frameRate: real)
      modifies this
      ensures pivots == old(pivots)
      ensures pivotEvents == old(pivotEvents) + [PivotEvent.ConvertPivotAnimationRecursive(stack, target, frameRate)]
    {
      pivotEvents := pivotEvents + [PivotEvent.ConvertPivotAnimationRecursive(stack, target, frameRate)];
    }

    /** The scene can be sampled and every node has pivot data. */
    ghost predicate Valid()
      reads this
    {
      && oneFrame > 0
      && forall n :: n in Preorder(root) ==> n.id in pivots
    }
  }

  /** The scene mapping collaborator: the scene, and the coordinate-adjust maths. */
  class SceneMapping {
    const scene: Scene
    const numerics: Numerics

    constructor (scene: Scene, numerics: Numerics)
      ensures this.scene == scene && this.numerics == numerics
    {
      this.scene := scene;
      this.numerics := numerics;
    }
  }
}
