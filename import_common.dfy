/** What the Xenko and the Paradox animation converters share beyond the resampler:
    the errors they raise, the recursive test for animation data (CheckAnimationData,
    written identically in both), the depth-first listing of animated nodes
    (GetAnimationNodes, whose per-node test differs between them), the list it
    appends to, and the spec of the per-stack loop of HasAnimationData. */
module ImportCommon {
  import opened Wrappers
  import opened Fbx
  import opened Sampling

  datatype ConverterError =
    | ArgumentNull(parameter: string)
      /** A member access through a null AnimationCurve handle. */
    | NullReference

  /** All three component curves of translation, of rotation or of scaling exist. */
  predicate CompleteTransform(c: LayerCurves) {
    c.translation.Complete() || c.rotation.Complete() || c.scaling.Complete()
  }

  /** The node has a camera with a FieldOfViewY or a FocalLength curve. */
  predicate CameraAnimated(layer: Option<LayerId>, node: Node) {
    node.Camera().Some? && (CurvesOf(node, layer).fieldOfViewY.Some? || CurvesOf(node, layer).focalLength.Some?)
  }

  /** The test CheckAnimationData applies to the node itself. */
  predicate OwnAnimationData(layer: Option<LayerId>, node: Node) {
    CompleteTransform(CurvesOf(node, layer)) || CameraAnimated(layer, node)
  }

  /** CheckAnimationData: the node passes its own test, or some child's subtree does
      (the children are tried in index order and the first success returns). */
  predicate CheckAnimationData(layer: Option<LayerId>, node: Node)
    decreases node
  {
    || OwnAnimationData(layer, node)
    || exists i :: 0 <= i < |node.children| && CheckAnimationData(layer, node.children[i])
  }

  /** CheckAnimationData holds exactly when some node of the subtree, the node itself
      or a descendant, passes the per-node test. */
  lemma {:induction false} CheckAnimationDataFindsNode(layer: Option<LayerId>, node: Node)
    ensures CheckAnimationData(layer, node) <==> exists n :: n in Preorder(node) && OwnAnimationData(layer, n)
    decreases node, 1
  {
    ForestFindsNode(layer, node.children);
  }

  lemma {:induction false} ForestFindsNode(layer: Option<LayerId>, nodes: seq<Node>)
    ensures (exists i :: 0 <= i < |nodes| && CheckAnimationData(layer, nodes[i]))
        <==> exists n :: n in PreorderForest(nodes) && OwnAnimationData(layer, n)
    decreases nodes, 0
  {
    if |nodes| > 0 {
      var last := |nodes| - 1;
      var init := nodes[..last];
      ForestFindsNode(layer, init);
      CheckAnimationDataFindsNode(layer, nodes[last]);
      assert PreorderForest(nodes) == PreorderForest(init) + Preorder(nodes[last]);
      if exists i :: 0 <= i < |nodes| && CheckAnimationData(layer, nodes[i]) {
        var i :| 0 <= i < |nodes| && CheckAnimationData(layer, nodes[i]);
        if i < last {
          assert init[i] == nodes[i];
        }
      }
      if exists n :: n in PreorderForest(nodes) && OwnAnimationData(layer, n) {
        var n :| n in PreorderForest(nodes) && OwnAnimationData(layer, n);
        if n in PreorderForest(init) {
          var i :| 0 <= i < |init| && CheckAnimationData(layer, init[i]);
          assert nodes[i] == init[i];
        }
      }
    }
  }

  /** What HasAnimationData answers: there is a stack, and for every stack the tree
      under the root has animation data in the stack's first layer. */
  predicate AllStacksAnimated(stacks: seq<AnimStack>, root: Node) {
    && |stacks| > 0
    && forall i :: 0 <= i < |stacks| ==> CheckAnimationData(stacks[i].FirstLayer(), root)
  }

  /** HasAnimationData in terms of the nodes: every stack's first layer animates some
      node of the tree. */
  lemma HasAnimationDataMeans(stacks: seq<AnimStack>, root: Node)
    ensures AllStacksAnimated(stacks, root) <==>
      && |stacks| > 0
      && forall i :: 0 <= i < |stacks| ==> exists n :: n in Preorder(root) && OwnAnimationData(stacks[i].FirstLayer(), n)
  {
    forall i | 0 <= i < |stacks|
      ensures CheckAnimationData(stacks[i].FirstLayer(), root)
          <==> exists n :: n in Preorder(root) && OwnAnimationData(stacks[i].FirstLayer(), n)
    {
      CheckAnimationDataFindsNode(stacks[i].FirstLayer(), root);
    }
    if AllStacksAnimated(stacks, root) {
      assert forall i :: 0 <= i < |stacks| ==> exists n :: n in Preorder(root) && OwnAnimationData(stacks[i].FirstLayer(), n);
    }
  }

  /** Which transform test GetAnimationNodes applies: the Xenko converter lists a
      node when any component curve of a transform exists, the Paradox converter
      only when all three components of one transform exist. */
  datatype ListRule = AnyComponent | AllComponents

  /** GetAnimationNodes lists a node when its transform curves pass the rule, and
      otherwise whenever the node has a camera: the camera test starts true and only
      ever conjoins curves it has just found to exist. */
  predicate Listed(rule: ListRule, layer: Option<LayerId>, node: Node) {
    var c := CurvesOf(node, layer);
    || (match rule
        case AnyComponent => c.translation.AnyPresent() || c.rotation.AnyPresent() || c.scaling.AnyPresent()
        case AllComponents => CompleteTransform(c))
    || node.Camera().Some?
  }

  /** The names of the nodes of a list that are listed, in order. */
  function ListedNames(rule: ListRule, layer: Option<LayerId>, nodes: seq<Node>): (r: seq<string>)
    ensures |r| <= |nodes|
  {
    if |nodes| == 0 then []
    else ListedNames(rule, layer, nodes[..|nodes| - 1])
         + (if Listed(rule, layer, nodes[|nodes| - 1]) then [nodes[|nodes| - 1].name] else [])
  }

  lemma {:induction false} ListedNamesConcat(rule: ListRule, layer: Option<LayerId>, a: seq<Node>, b: seq<Node>)
    ensures ListedNames(rule, layer, a + b) == ListedNames(rule, layer, a) + ListedNames(rule, layer, b)
    decreases |b|
  {
    if |b| == 0 {
      assert a + b == a;
    } else {
      var init := b[..|b| - 1];
      var own := if Listed(rule, layer, b[|b| - 1]) then [b[|b| - 1].name] else [];
      ListedNamesConcat(rule, layer, a, init);
      assert (a + b)[..|a + b| - 1] == a + init;
      assert (a + b)[|a + b| - 1] == b[|b| - 1];
      assert ListedNames(rule, layer, a + b) == ListedNames(rule, layer, a + init) + own;
      assert ListedNames(rule, layer, b) == ListedNames(rule, layer, init) + own;
      assert ListedNames(rule, layer, a) + ListedNames(rule, layer, init) + own
          == ListedNames(rule, layer, a) + (ListedNames(rule, layer, init) + own);
    }
  }

  /** A subtree lists its root's name first, then its children's subtrees in order. */
  lemma {:induction false} ListedPreorder(rule: ListRule, layer: Option<LayerId>, node: Node)
    ensures ListedNames(rule, layer, Preorder(node))
         == (if Listed(rule, layer, node) then [node.name] else []) + ListedNames(rule, layer, PreorderForest(node.children))
  {
    ListedNamesConcat(rule, layer, [node], PreorderForest(node.children));
    assert [node][..0] == [];
  }

  /** The names listed in the subtrees of the first i children, built one child at
      a time as the loop over the children appends them. */
  function ChildNames(rule: ListRule, layer: Option<LayerId>, children: seq<Node>, i: nat): seq<string>
    requires i <= |children|
  {
    if i == 0 then [] else ChildNames(rule, layer, children, i - 1) + ListedNames(rule, layer, Preorder(children[i - 1]))
  }

  lemma {:induction false} ChildNamesAll(rule: ListRule, layer: Option<LayerId>, children: seq<Node>, i: nat)
    requires i <= |children|
    ensures ChildNames(rule, layer, children, i) == ListedNames(rule, layer, PreorderForest(children[..i]))
  {
    if i > 0 {
      var before := PreorderForest(children[..i - 1]);
      var child := Preorder(children[i - 1]);
      ChildNamesAll(rule, layer, children, i - 1);
      PreorderForestSnoc(children, i - 1);
      assert PreorderForest(children[..i]) == before + child;
      ListedNamesConcat(rule, layer, before, child);
    }
  }

  /** Some node of the list is listed exactly when some name is. */
  lemma {:induction false} ListedNamesNonEmpty(rule: ListRule, layer: Option<LayerId>, nodes: seq<Node>)
    ensures |ListedNames(rule, layer, nodes)| > 0 <==> exists n :: n in nodes && Listed(rule, layer, n)
  {
    if |nodes| > 0 {
      var init := nodes[..|nodes| - 1];
      ListedNamesNonEmpty(rule, layer, init);
      assert nodes == init + [nodes[|nodes| - 1]];
    }
  }

  /** Every node with animation data is listed under either rule, so a tree that
      passes CheckAnimationData lists at least one node. */
  lemma AnimatedTreeIsListed(rule: ListRule, layer: Option<LayerId>, root: Node)
    requires CheckAnimationData(layer, root)
    ensures |ListedNames(rule, layer, Preorder(root))| > 0
  {
    CheckAnimationDataFindsNode(layer, root);
    var n :| n in Preorder(root) && OwnAnimationData(layer, n);
    assert Listed(rule, layer, n);
    ListedNamesNonEmpty(rule, layer, Preorder(root));
  }

  /** What ExtractAnimationNodesNoInit returns: for each stack in turn, the listed
      nodes of the tree in depth-first pre-order. */
  function StackNames(rule: ListRule, stacks: seq<AnimStack>, root: Node): seq<string> {
    if |stacks| == 0 then []
    else StackNames(rule, stacks[..|stacks| - 1], root) + ListedNames(rule, stacks[|stacks| - 1].FirstLayer(), Preorder(root))
  }

  /** A resampling function for a group of curves: its keyframes, or None when the
      group has no animation. */
  type Resampler = seq<Option<AnimCurve>> -> Option<seq<KeyFrame>>

  /** What a depth-first traversal produces for a list of nodes: each node's part,
      in order. */
  function FlatMap<T>(nodes: seq<Node>, f: Node -> seq<T>): seq<T> {
    if |nodes| == 0 then [] else FlatMap(nodes[..|nodes| - 1], f) + f(nodes[|nodes| - 1])
  }

  lemma {:induction false} FlatMapConcat<T>(a: seq<Node>, b: seq<Node>, f: Node -> seq<T>)
    ensures FlatMap(a + b, f) == FlatMap(a, f) + FlatMap(b, f)
    decreases |b|
  {
    if |b| == 0 {
      assert a + b == a;
    } else {
      FlatMapConcat(a, b[..|b| - 1], f);
      assert (a + b)[..|a + b| - 1] == a + b[..|b| - 1];
      assert (a + b)[|a + b| - 1] == b[|b| - 1];
    }
  }

  /** A subtree's part: the node's own, then its children's subtrees in order. */
  lemma {:induction false} FlatMapPreorder<T>(node: Node, f: Node -> seq<T>)
    ensures FlatMap(Preorder(node), f) == f(node) + FlatMap(PreorderForest(node.children), f)
  {
    FlatMapConcat([node], PreorderForest(node.children), f);
    assert [node][..0] == [];
  }

  /** The parts of the subtrees of the first i children, as the loop over the
      children produces them. */
  function ChildFlatMap<T>(children: seq<Node>, i: nat, f: Node -> seq<T>): seq<T>
    requires i <= |children|
  {
    if i == 0 then [] else ChildFlatMap(children, i - 1, f) + FlatMap(Preorder(children[i - 1]), f)
  }

  lemma {:induction false} ChildFlatMapAll<T>(children: seq<Node>, i: nat, f: Node -> seq<T>)
    requires i <= |children|
    ensures ChildFlatMap(children, i, f) == FlatMap(PreorderForest(children[..i]), f)
  {
    if i > 0 {
      var before := PreorderForest(children[..i - 1]);
      var child := Preorder(children[i - 1]);
      ChildFlatMapAll(children, i - 1, f);
      PreorderForestSnoc(children, i - 1);
      assert PreorderForest(children[..i]) == before + child;
      FlatMapConcat(before, child, f);
    }
  }

  /** Two part functions that agree on every node of the list give the same result. */
  lemma {:induction false} FlatMapCongruent<T>(nodes: seq<Node>, f: Node -> seq<T>, g: Node -> seq<T>)
    requires forall m :: m in nodes ==> f(m) == g(m)
    ensures FlatMap(nodes, f) == FlatMap(nodes, g)
  {
    if |nodes| > 0 {
      FlatMapCongruent(nodes[..|nodes| - 1], f, g);
    }
  }

  /** Every element comes from some node's part, and every node's part is there. */
  lemma {:induction false} FlatMapMeans<T>(nodes: seq<Node>, f: Node -> seq<T>)
    ensures forall e :: e in FlatMap(nodes, f) <==> exists m :: m in nodes && e in f(m)
  {
    if |nodes| > 0 {
      var init := nodes[..|nodes| - 1];
      var last := nodes[|nodes| - 1];
      FlatMapMeans(init, f);
      assert nodes == init + [last];
      forall e | exists m :: m in nodes && e in f(m)
        ensures e in FlatMap(nodes, f)
      {
        var m :| m in nodes && e in f(m);
        if m != last {
          assert m in init;
        }
      }
    }
  }

  /** When every node gives at most one entry, an entry is produced exactly when some
      node gives it alone. */
  lemma FlatMapSingletons<T>(nodes: seq<Node>, f: Node -> seq<T>)
    requires forall m :: |f(m)| <= 1
    ensures forall e :: e in FlatMap(nodes, f) <==> exists m :: m in nodes && f(m) == [e]
  {
    FlatMapMeans(nodes, f);
    forall m | m in nodes
      ensures forall e :: e in f(m) ==> f(m) == [e]
    {
    }
  }

  /** The camera curves of a layer, in the order the converters read them. */
  function CameraSeq(c: LayerCurves): (s: seq<Option<AnimCurve>>)
    ensures |s| == 4
  {
    [c.fieldOfViewY, c.focalLength, c.nearPlane, c.farPlane]
  }

  /** Every key time of every curve of the layer is finite, as the SDK guarantees. */
  predicate FiniteCurves(c: LayerCurves) {
    && FiniteKeyTimes(c.translation.AsSeq()) && FiniteKeyTimes(c.rotation.AsSeq()) && FiniteKeyTimes(c.scaling.AsSeq())
    && FiniteKeyTimes(CameraSeq(c))
  }

  /** No two nodes of the list share an id. */
  predicate UniqueIds(nodes: seq<Node>) {
    forall i, j :: 0 <= i < j < |nodes| ==> nodes[i].id != nodes[j].id
  }

  /** A per-node pivot decision: the node's new pivot data from the node and its
      current pivot data. */
  type PivotRule = (Node, NodePivots) -> NodePivots

  /** The pivot data after a per-node decision is applied to each node of a list in turn
      (a node without pivot data is passed over). */
  function PivotsAfter(pivots: map<nat, NodePivots>, nodes: seq<Node>, rule: PivotRule): (r: map<nat, NodePivots>)
    ensures r.Keys == pivots.Keys
  {
    if |nodes| == 0 then pivots
    else
      var p := PivotsAfter(pivots, nodes[..|nodes| - 1], rule);
      var node := nodes[|nodes| - 1];
      if node.id in p then p[node.id := rule(node, p[node.id])] else p
  }

  lemma {:induction false} PivotsAfterConcat(pivots: map<nat, NodePivots>, a: seq<Node>, b: seq<Node>, rule: PivotRule)
    ensures PivotsAfter(pivots, a + b, rule) == PivotsAfter(PivotsAfter(pivots, a, rule), b, rule)
    decreases |b|
  {
    if |b| == 0 {
      assert a + b == a;
    } else {
      PivotsAfterConcat(pivots, a, b[..|b| - 1], rule);
      assert (a + b)[..|a + b| - 1] == a + b[..|b| - 1];
      assert (a + b)[|a + b| - 1] == b[|b| - 1];
    }
  }

  /** A subtree: the node first, then its children's subtrees in order. */
  lemma {:induction false} PivotsAfterPreorder(pivots: map<nat, NodePivots>, node: Node, rule: PivotRule)
    requires node.id in pivots
    ensures PivotsAfter(pivots, Preorder(node), rule)
         == PivotsAfter(pivots[node.id := rule(node, pivots[node.id])], PreorderForest(node.children), rule)
  {
    PivotsAfterConcat(pivots, [node], PreorderForest(node.children), rule);
    assert [node][..0] == [];
  }

  /** The pivot data after the subtrees of the first i children, as the loop over the
      children leaves it. */
  function ChildPivots(pivots: map<nat, NodePivots>, children: seq<Node>, i: nat, rule: PivotRule): (r: map<nat, NodePivots>)
    requires i <= |children|
    ensures r.Keys == pivots.Keys
  {
    if i == 0 then pivots else PivotsAfter(ChildPivots(pivots, children, i - 1, rule), Preorder(children[i - 1]), rule)
  }

  lemma {:induction false} ChildPivotsAll(pivots: map<nat, NodePivots>, children: seq<Node>, i: nat, rule: PivotRule)
    requires i <= |children|
    ensures ChildPivots(pivots, children, i, rule) == PivotsAfter(pivots, PreorderForest(children[..i]), rule)
  {
    if i > 0 {
      var before := PreorderForest(children[..i - 1]);
      var child := Preorder(children[i - 1]);
      ChildPivotsAll(pivots, children, i - 1, rule);
      PreorderForestSnoc(children, i - 1);
      assert PreorderForest(children[..i]) == before + child;
      PivotsAfterConcat(pivots, before, child, rule);
    }
  }

  /** A node outside the list keeps its pivot data. */
  lemma {:induction false} PivotsAfterOthers(pivots: map<nat, NodePivots>, nodes: seq<Node>, rule: PivotRule)
    ensures forall id :: id in pivots && (forall i :: 0 <= i < |nodes| ==> nodes[i].id != id) ==>
      PivotsAfter(pivots, nodes, rule)[id] == pivots[id]
  {
    if |nodes| > 0 {
      var init := nodes[..|nodes| - 1];
      PivotsAfterOthers(pivots, init, rule);
    }
  }

  /** With distinct node ids, every node of the list gets the rule's decision for its own
      original pivot data, exactly once, and every other node keeps its data. */
  lemma {:induction false} PivotsAfterEachNode(pivots: map<nat, NodePivots>, nodes: seq<Node>, rule: PivotRule)
    requires UniqueIds(nodes)
    ensures forall i :: 0 <= i < |nodes| && nodes[i].id in pivots ==>
      PivotsAfter(pivots, nodes, rule)[nodes[i].id] == rule(nodes[i], pivots[nodes[i].id])
    ensures forall id :: id in pivots && (forall i :: 0 <= i < |nodes| ==> nodes[i].id != id) ==>
      PivotsAfter(pivots, nodes, rule)[id] == pivots[id]
  {
    PivotsAfterOthers(pivots, nodes, rule);
    if |nodes| > 0 {
      var init := nodes[..|nodes| - 1];
      var last := nodes[|nodes| - 1];
      PivotsAfterEachNode(pivots, init, rule);
      PivotsAfterOthers(pivots, init, rule);
      forall i | 0 <= i < |nodes| && nodes[i].id in pivots
        ensures PivotsAfter(pivots, nodes, rule)[nodes[i].id] == rule(nodes[i], pivots[nodes[i].id])
      {
        if i < |nodes| - 1 {
          assert init[i] == nodes[i];
        } else {
          assert forall k :: 0 <= k < |init| ==> init[k].id != last.id;
        }
      }
    }
  }

  /** The List<String^> GetAnimationNodes appends node names to. */
  class NameList {
    var items: seq<string>

    constructor ()
      ensures items == []
    {
      items := [];
    }

    method Add(name: string)
      modifies this
      ensures items == old(items) + [name]
    {
      items := items + [name];
    }
  }
}
