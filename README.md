# FBX animation conversion and template generator parameters

A Dafny model of the animation side of the Xenko (formerly Paradox) FBX importer, and of the parameter objects that the asset template generators validate.

The importer reads the curves of an FBX scene. Each node carries translation, rotation and scaling component curves and, on a camera, field-of-view, focal-length and clip-plane curves. The importer turns these into engine animation clips. Two generations of the converter are modelled side by side:

- **Xenko** `AnimationConverter` (a header-only C++/CLI class). It builds one clip per animated node and collects the clips in a dictionary keyed by node name.
- **Paradox** `AnimationConverter`. It builds one aggregate clip holding the curves of every node.

The heart of both is `ProcessAnimationCurveFloatsHelper`, which resamples a group of up to four FBX curves (the X, Y, Z components of one property, or one camera curve). It samples them once per frame from the earliest first key to the latest last key and writes one keyframe per sample. Where a curve leaves a key with constant (step) interpolation, it writes four keyframes at the same time: the held values twice, then the new values twice. The two generations differ in:

- how a null curve is treated (Xenko writes 0; Paradox drops the group);
- where the key index starts (Xenko -1, Paradox 0);
- which key's constant flag marks a discontinuity.

The model is layered as follows:

- `fbx.dfy`: the FBX scene as values. Nodes, cameras, lights, anim stacks and layers, curves with keys, and per-node pivot data. The `Scene` class holds the pivot data the converter mutates.
- `sampling.dfy`: what both resamplers share. The time span of a curve group, the sample times, the latest key at a time, and how a trace of sample steps is emitted as keyframes.
- `xenko_resampler.dfy`, `paradox_resampler.dfy`: each resampler as a step function over channel states, proved equal to an imperative model of the source loop over fixed-size arrays. Each also has a specification that relates every step to the curves' keys.
- `comparison.dfy`: one curve on which the two resamplers disagree.
- `animations.dfy`: the engine's `AnimationCurve` and `AnimationClip` classes, and the in-place channel rewrites (degrees to radians, negate Z, multiply).
- `import_common.dfy`: the pieces both converters share. `CheckAnimationData`, the node lists of `GetAnimationNodes`, depth-first traversal of the node tree, and pivot updates over the tree.
- `xenko_converter.dfy`, `paradox_converter.dfy`: the two `AnimationConverter` classes.
- `template_parameters.dfy`: `TemplateGeneratorParameters` and its Session, Package and Asset subclasses. This covers validation and the tag dictionary.

Floating-point arithmetic is modelled over `real`. Trigonometry, the quaternion conversion and the coordinate-system matrices are left uninterpreted as the fields of a `Numerics` value.

Two behaviours of the code worth stating up front:

- `HasAnimationData`: `CheckAnimationData` holds when *some* node of the subtree has a complete transform triple or an animated camera. The result is the conjunction of that test over the anim stacks, taken on each stack's first layer.
- Field of view: the Xenko converter leaves `Camera.FieldOfViewY` as it is, and its `ComputeFovFromFL` produces degrees. The Paradox converter produces radians.

## Model

| member | source | states |
|---|---|---|
| Sampling.SpanIsEarliestAndLatest | sources/tools/SiliconStudio.Xenko.Importer.FBX/AnimationConverter.h:249-276 | The group has no key exactly when the span keeps a sentinel (infinite start or minus-infinite end), and then the span is the empty sentinel span; otherwise the span starts at the earliest first-key time and ends at the latest last-key time, and every curve with keys lies inside it. |
| Sampling.SpanOrdered | sources/tools/SiliconStudio.Xenko.Importer.FBX/AnimationConverter.h:249-276 | With time-ordered keys and at least one key, the span's start is not after its end. |
| Sampling.SampleTimesShape | sources/tools/SiliconStudio.Xenko.Importer.FBX/AnimationConverter.h:300-311 | The sample times are never empty; the first is the start (the end when the span is empty or reversed) and the last is the end; every earlier sample is before the end; there is exactly one sample when the start is not before the end. |
| Sampling.SampleTimesSpacing | sources/tools/SiliconStudio.Xenko.Importer.FBX/AnimationConverter.h:302-309 | Consecutive samples are exactly one frame apart, except the last step, which is clamped to the end. |
| Sampling.SampleTimesIncrease | sources/tools/SiliconStudio.Xenko.Importer.FBX/AnimationConverter.h:302-309 | The sample times strictly increase. |
| Sampling.SampleTimesCount | sources/tools/SiliconStudio.Xenko.Importer.FBX/AnimationConverter.h:302-309 | The number of samples n satisfies (n - 2) frames < end - start <= (n - 1) frames, and n is 1 for an empty span. |
| Sampling.SampleIncrementsFit | sources/tools/SiliconStudio.Xenko.Importer.FBX/AnimationConverter.h:302 | The loop adds one frame to every sample time, including the clamped last one. All these additions stay within the signed 64-bit FbxTime range exactly when the end time is at most one frame below the largest time. |
| Sampling.PendingStep | sources/tools/SiliconStudio.Xenko.Importer.FBX/AnimationConverter.h:302-309 | One iteration of the sampling loop takes the first pending time (clamped to the end once it reaches it), and the remaining times are those pending from the next time. |
| Sampling.LatestKey | sources/tools/SiliconStudio.Xenko.Importer.FBX/AnimationConverter.h:326-338 | The index found is the latest key at or before the time: that key is not later than the time, and every later key is; -1 when every key is later. |
| Sampling.LatestKeyMonotonic | sources/tools/SiliconStudio.Xenko.Importer.FBX/AnimationConverter.h:326-338 | A later sample time never moves the latest key backwards, so the key index only advances. |
| Sampling.BlockShape | sources/tools/SiliconStudio.Xenko.Importer.FBX/AnimationConverter.h:356-374 | A step appends four keyframes at a discontinuity, the first two equal (the held values) and the last two equal, and one keyframe otherwise; all carry the step's time and the last carries the new values. |
| Sampling.EmitLength | sources/tools/SiliconStudio.Xenko.Importer.FBX/AnimationConverter.h:356-374 | The output length is the number of steps plus three times the number of discontinuous steps. |
| Sampling.EmitTimes | sources/tools/SiliconStudio.Xenko.Importer.FBX/AnimationConverter.h:356-374 | With increasing step times the emitted keyframe times are non-decreasing, start at the first step's time, end at the last step's time and stay between them. |
| Sampling.EmitFollowsSamples | sources/tools/SiliconStudio.Xenko.Importer.FBX/AnimationConverter.h:300-375 | Steps taken at increasing sample times emit ordered keyframes from the first to the last sample time, of length samples + 3 x discontinuities, and each step's last keyframe carries the curves evaluated at its sample time. |
| XenkoResampler.AdvanceKeyReachesLatestKey | sources/tools/SiliconStudio.Xenko.Importer.FBX/AnimationConverter.h:322-338 | With time-ordered keys, the advance loop started at or before the latest key at or before the time stops exactly on it; the constant flag is that of the key reached, and wasConstant is that of the key left last. |
| XenkoResampler.ChannelStepMeaning | sources/tools/SiliconStudio.Xenko.Importer.FBX/AnimationConverter.h:316-353 | A channel's step ends on the latest key and writes the evaluated value (0 for a null curve); it has a discontinuity exactly when it moves onto a key whose predecessor is constant, and only then writes the held value first. |
| XenkoResampler.GroupStepMeaning | sources/tools/SiliconStudio.Xenko.Importer.FBX/AnimationConverter.h:313-354 | A step of the group keeps every channel consistent and has a discontinuity exactly when some channel leaves a constant key; null channels write 0 and never cause one. |
| XenkoResampler.ResampleNoneIffNoKeys | sources/tools/SiliconStudio.Xenko.Importer.FBX/AnimationConverter.h:249-276 | The helper reports no animation exactly when no non-null curve has a key; null curves are skipped, not fatal. |
| XenkoResampler.ResampleFollowsKeys | sources/tools/SiliconStudio.Xenko.Importer.FBX/AnimationConverter.h:284-375 | For time-ordered keys, every step of the resampling is stamped with its sample time, writes the curves evaluated there, is a discontinuity exactly when some channel's latest key moves onto a key after a constant one, and then writes the previous sample's values first on exactly those channels. |
| XenkoResampler.ResampleShape | sources/tools/SiliconStudio.Xenko.Importer.FBX/AnimationConverter.h:300-375 | The output is ordered, starts at the earliest first-key time, ends at the latest last-key time, has samples + 3 x discontinuities keyframes, and each sample's last keyframe holds the curves evaluated at that time. |
| XenkoResampler.ProcessAnimationCurveFloatsHelper | sources/tools/SiliconStudio.Xenko.Importer.FBX/AnimationConverter.h:247-378 | The loop over the first numCurves curves (at most four) returns exactly the resampled keyframes, or null when there is no animation. |
| XenkoResampler.CurvesTimeSpan | sources/tools/SiliconStudio.Xenko.Importer.FBX/AnimationConverter.h:249-269 | The span loop computes the earliest first-key and latest last-key time, skipping null curves and curves without keys. |
| XenkoResampler.SampleCurves | sources/tools/SiliconStudio.Xenko.Importer.FBX/AnimationConverter.h:300-375 | The sampling loop emits the keyframes of every remaining sample step from the initial channel state. |
| XenkoResampler.SampleFrame | sources/tools/SiliconStudio.Xenko.Importer.FBX/AnimationConverter.h:302-375 | One iteration emits the keyframes of the current sample step, keeps the channel arrays consistent and leaves fewer pending sample times. |
| XenkoResampler.InitialChannels | sources/tools/SiliconStudio.Xenko.Importer.FBX/AnimationConverter.h:284-294 | Every channel starts with key index -1, not constant, and value 0. |
| XenkoResampler.AdvanceChannels | sources/tools/SiliconStudio.Xenko.Importer.FBX/AnimationConverter.h:316-354 | The channel loop advances every channel as its step says and flags the group as discontinuous exactly when some channel is. |
| XenkoResampler.StepChannel | sources/tools/SiliconStudio.Xenko.Importer.FBX/AnimationConverter.h:318-353 | One channel's arrays are updated as its step says and every other channel's entries are unchanged. |
| XenkoResampler.AdvanceChannel | sources/tools/SiliconStudio.Xenko.Importer.FBX/AnimationConverter.h:326-338 | The while loop over one curve's keys computes the key-advance function. |
| XenkoResampler.UpdateConstantValues | sources/tools/SiliconStudio.Xenko.Importer.FBX/AnimationConverter.h:363-369 | After the held values are written, the channels with a discontinuity take the value evaluated at the sample time (0 for a null curve), and the others keep theirs. |
| XenkoResampler.StepArrays | sources/tools/SiliconStudio.Xenko.Importer.FBX/AnimationConverter.h:313-369 | A whole sample step on the arrays leaves them in the state, values and discontinuity flag the step function gives. |
| XenkoResampler.SampleStep | sources/tools/SiliconStudio.Xenko.Importer.FBX/AnimationConverter.h:311-374 | A sample step emits the keyframes of the next step and leaves the arrays ready for the remaining times. |
| XenkoResampler.RemainingIsEmitTrace | sources/tools/SiliconStudio.Xenko.Importer.FBX/AnimationConverter.h:302-375 | The loop's output, sample by sample, equals the emitted keyframes of the step trace. |
| ParadoxResampler.ResampleNoneIff | sources/tools/SiliconStudio.Paradox.Importer.FBX/AnimationConverter.cpp:228-257 | The helper reports no animation exactly when one of the numCurves curves is null or no curve has a key, so an incomplete triple is skipped entirely. |
| ParadoxResampler.AdvanceKeyReachesNextKey | sources/tools/SiliconStudio.Paradox.Importer.FBX/AnimationConverter.cpp:302-322 | With time-ordered keys, the advance loop stops on the first key after the time (or the last key), consistent again, and reports a discontinuity exactly when it stepped over a constant key other than key 0. |
| ParadoxResampler.NextKeyMonotonic | sources/tools/SiliconStudio.Paradox.Importer.FBX/AnimationConverter.cpp:302-322 | Key indices start at 0 and only advance: a later sample time never moves the stopping key backwards. |
| ParadoxResampler.ChannelStepMeaning | sources/tools/SiliconStudio.Paradox.Importer.FBX/AnimationConverter.cpp:302-330 | A channel's step ends on the stopping key with that key's constant flag; it is a discontinuity exactly when it stepped over a constant key other than key 0; the value written first is the held one when the key reached is constant and the evaluated one otherwise, and the value written last is always the evaluated one. |
| ParadoxResampler.GroupStepMeaning | sources/tools/SiliconStudio.Paradox.Importer.FBX/AnimationConverter.cpp:299-330 | The group's discontinuity flag is the OR, over every key crossed this step on every channel, of the constant flag held before that crossing. |
| ParadoxResampler.ResampleFollowsKeys | sources/tools/SiliconStudio.Paradox.Importer.FBX/AnimationConverter.cpp:264-354 | For time-ordered keys and no null curve, every step of the resampling is stamped with its sample time, ends on the curves evaluated there, is a discontinuity exactly when some channel steps, between the previous sample time and this one, over a constant key other than key 0, and writes first the previous sample's values on the channels now on a constant key. |
| ParadoxResampler.ResampleShape | sources/tools/SiliconStudio.Paradox.Importer.FBX/AnimationConverter.cpp:286-354 | The output is ordered, starts at the earliest first-key time, ends exactly at the end time, and has samples + 3 x discontinuities keyframes. |
| ParadoxResampler.ProcessAnimationCurveFloatsHelper | sources/tools/SiliconStudio.Paradox.Importer.FBX/AnimationConverter.cpp:224-357 | The loop over the first numCurves curves returns exactly the resampled keyframes, or null when a curve is null or none has a key. |
| ParadoxResampler.CurvesTimeSpan | sources/tools/SiliconStudio.Paradox.Importer.FBX/AnimationConverter.cpp:226-250 | The span loop returns early exactly when a curve is null; otherwise it computes the earliest first-key and latest last-key time. |
| ParadoxResampler.SampleCurves | sources/tools/SiliconStudio.Paradox.Importer.FBX/AnimationConverter.cpp:286-354 | The sampling loop emits the keyframes of every remaining sample step from the initial channel state. |
| ParadoxResampler.SampleFrame | sources/tools/SiliconStudio.Paradox.Importer.FBX/AnimationConverter.cpp:288-354 | One iteration emits the keyframes of the current step, keeps the channel arrays consistent and leaves fewer pending sample times. |
| ParadoxResampler.InitialChannels | sources/tools/SiliconStudio.Paradox.Importer.FBX/AnimationConverter.cpp:273-280 | Every channel starts on key 0, not constant, and value 0. |
| ParadoxResampler.AdvanceChannels | sources/tools/SiliconStudio.Paradox.Importer.FBX/AnimationConverter.cpp:302-330 | The channel loop advances every channel as its step says and ORs the channels' discontinuities. |
| ParadoxResampler.StepChannel | sources/tools/SiliconStudio.Paradox.Importer.FBX/AnimationConverter.cpp:304-329 | One channel's key index, constant flag and value become those of its step; the other channels' entries are unchanged. |
| ParadoxResampler.AdvanceChannel | sources/tools/SiliconStudio.Paradox.Importer.FBX/AnimationConverter.cpp:310-320 | The while loop over one curve's keys computes the key-advance function. |
| ParadoxResampler.UpdateConstantValues | sources/tools/SiliconStudio.Paradox.Importer.FBX/AnimationConverter.cpp:343-349 | After the held values are written, every channel on a constant key takes the value evaluated at the sample time; the others keep theirs. |
| ParadoxResampler.StepArrays | sources/tools/SiliconStudio.Paradox.Importer.FBX/AnimationConverter.cpp:299-349 | A whole sample step on the arrays leaves them in the state, values and discontinuity flag the step function gives. |
| ParadoxResampler.SampleStep | sources/tools/SiliconStudio.Paradox.Importer.FBX/AnimationConverter.cpp:297-353 | A sample step emits the keyframes of the next step and leaves the arrays ready for the remaining times. |
| ParadoxResampler.RemainingIsEmitTrace | sources/tools/SiliconStudio.Paradox.Importer.FBX/AnimationConverter.cpp:288-354 | The loop's output, sample by sample, equals the emitted keyframes of the step trace. |
| ParadoxResampler.LiftUnwrap | sources/tools/SiliconStudio.Paradox.Importer.FBX/AnimationConverter.cpp:228-236 | A group without a null curve is exactly its curves: checking for null loses nothing. |
| ResamplerComparison.ParadoxLosesConstantStep | sources/tools/SiliconStudio.Paradox.Importer.FBX/AnimationConverter.cpp:305-320 | For one curve with a constant key at 0 (value 1) and a linear key at 10 (value 2), sampled every 10 ticks, the Paradox resampler emits just (0, 1) and (10, 2): the step is never flagged. |
| ResamplerComparison.XenkoKeepsConstantStep | sources/tools/SiliconStudio.Xenko.Importer.FBX/AnimationConverter.h:288-342 | For the same curve the Xenko resampler emits (0, 1), then at time 10 the held 1 twice and the new 2 twice. |
| Animations.MapValues | sources/tools/SiliconStudio.Xenko.Importer.FBX/AnimationConverter.h:380-421 | A per-keyframe value rewrite keeps the keyframe count and every keyframe time. |
| Animations.NegateZ | sources/tools/SiliconStudio.Xenko.Importer.FBX/AnimationConverter.h:390-399 | Negating Z keeps the length and X and Y, and negates Z. |
| Animations.ConvertDegreeToRadians | sources/tools/SiliconStudio.Xenko.Importer.FBX/AnimationConverter.h:380-388 | Every keyframe value of the channel is multiplied by pi/180 in place; times, count and interpolation are unchanged. |
| Animations.ReverseChannelZ | sources/tools/SiliconStudio.Xenko.Importer.FBX/AnimationConverter.h:390-399 | Every keyframe's Z component is negated in place; times, count and interpolation are unchanged. |
| Animations.MultiplyChannel | sources/tools/SiliconStudio.Xenko.Importer.FBX/AnimationConverter.h:412-421 | Every keyframe value of the channel is multiplied by the factor in place; times, count and interpolation are unchanged. |
| Animations.RewriteValues | sources/tools/SiliconStudio.Xenko.Importer.FBX/AnimationConverter.h:454-474 | An in-place rewrite of every keyframe value of a curve; times, count and interpolation are unchanged. |
| Animations.AnimationClip.AddCurve | sources/tools/SiliconStudio.Xenko.Importer.FBX/AnimationConverter.h:158 | The named curve is appended to the clip's curve list; Duration is unchanged; distinct curve objects stay distinct. |
| Animations.DurationIsLatestEnd | sources/tools/SiliconStudio.Xenko.Importer.FBX/AnimationConverter.h:158-165 | After curves are added, Duration is the maximum of its initial value and the last keyframe times of the curves that have keyframes. |
| Animations.DurationAfterConcat | sources/tools/SiliconStudio.Xenko.Importer.FBX/AnimationConverter.h:158-165 | Adding two lists of curves one after the other gives the Duration of adding them together. |
| Animations.DurationSameEnds | sources/tools/SiliconStudio.Xenko.Importer.FBX/AnimationConverter.h:158-165 | Curves with the same keyframe counts and last times give the same Duration, so value rewrites never change Duration. |
| Animations.AddKeyFrames | sources/tools/SiliconStudio.Xenko.Importer.FBX/AnimationConverter.h:152-156 | The keyframes are appended to the curve in order. |
| Animations.DegreesToRadiansFrames | sources/tools/SiliconStudio.Xenko.Importer.FBX/AnimationConverter.h:205-211 | The Euler keyframes with every angle multiplied by pi/180. |
| Animations.QuaternionCurve | sources/tools/SiliconStudio.Xenko.Importer.FBX/AnimationConverter.h:213-232 | A new curve with one quaternion keyframe per Euler keyframe, at the same time. |
| Animations.AddCurveWithDuration | sources/tools/SiliconStudio.Xenko.Importer.FBX/AnimationConverter.h:158-165 | The curve is appended and Duration becomes the later of its old value and the curve's last keyframe time. |
| Animations.RewriteCurveAt | sources/tools/SiliconStudio.Xenko.Importer.FBX/AnimationConverter.h:454-474 | Rewriting the values of a curve already in the clip changes exactly that curve's entry of the clip's contents. |
| ImportCommon.CheckAnimationDataFindsNode | sources/tools/SiliconStudio.Xenko.Importer.FBX/AnimationConverter.h:690-722 | CheckAnimationData holds exactly when some node of the subtree has a complete transform triple, or is a camera with a field-of-view or focal-length curve. |
| ImportCommon.HasAnimationDataMeans | sources/tools/SiliconStudio.Paradox.Importer.FBX/AnimationConverter.cpp:38-58 | HasAnimationData is false without stacks; otherwise it holds exactly when, for every stack, its first layer animates some node of the tree (the node itself or a descendant). |
| ImportCommon.ListedPreorder | sources/tools/SiliconStudio.Xenko.Importer.FBX/AnimationConverter.h:737-779 | GetAnimationNodes lists a node before the nodes of its children's subtrees, in child index order. |
| ImportCommon.ListedNamesNonEmpty | sources/tools/SiliconStudio.Xenko.Importer.FBX/AnimationConverter.h:754-773 | The list of names is non-empty exactly when some node of the list passes the node test. |
| ImportCommon.AnimatedTreeIsListed | sources/tools/SiliconStudio.Paradox.Importer.FBX/AnimationConverter.cpp:486-565 | When CheckAnimationData holds, GetAnimationNodes lists at least one node of the tree. |
| ImportCommon.FlatMapPreorder | sources/tools/SiliconStudio.Xenko.Importer.FBX/AnimationConverter.h:515-518 | What a node's subtree contributes is the node's own part, then its children's subtrees in index order. |
| ImportCommon.FlatMapMeans | sources/tools/SiliconStudio.Xenko.Importer.FBX/AnimationConverter.h:423-519 | An entry is produced for the subtree exactly when some node of it produces it. |
| ImportCommon.PivotsAfterPreorder | sources/tools/SiliconStudio.Xenko.Importer.FBX/AnimationConverter.h:684-687 | SetPivotStateRecursive sets the node's pivot state, then its children's subtrees in index order. |
| ImportCommon.PivotsAfterEachNode | sources/tools/SiliconStudio.Xenko.Importer.FBX/AnimationConverter.h:608-688 | With distinct node ids, every node of the tree gets the decision for its own original pivot data, and a node outside the tree keeps its pivot data. |
| ImportCommon.NameList.Add | sources/tools/SiliconStudio.Xenko.Importer.FBX/AnimationConverter.h:756 | The name is appended to the list. |
| XenkoConverter.RotationFrames | sources/tools/SiliconStudio.Xenko.Importer.FBX/AnimationConverter.h:205-232 | The rotation curve has the Euler resample's count and times, and each value is the adjusted quaternion of the angles multiplied by pi/180. |
| XenkoConverter.ClipsMeans | sources/tools/SiliconStudio.Xenko.Importer.FBX/AnimationConverter.h:510-518 | The dictionary holds exactly the clips of the nodes whose clip has a curve. |
| XenkoConverter.NodeClipMeans | sources/tools/SiliconStudio.Xenko.Importer.FBX/AnimationConverter.h:510-513 | A node's clip is added only when it has a curve; it is named after the node, holds the node's curves, and its Duration is the latest last-keyframe time of those curves (0 when none has one). |
| XenkoConverter.TransformCurvesEmptyIff | sources/tools/SiliconStudio.Xenko.Importer.FBX/AnimationConverter.h:439-452 | A node has no transform curve exactly when none of its nine transform component curves has a key; an incomplete triple still gives a curve. |
| XenkoConverter.SingleChannelNoneIff | sources/tools/SiliconStudio.Xenko.Importer.FBX/AnimationConverter.h:479-507 | A camera channel is absent exactly when the camera has no such curve or the curve has no key. |
| XenkoConverter.CameraSeqParts | sources/tools/SiliconStudio.Xenko.Importer.FBX/AnimationConverter.h:476-508 | The camera's four curves have no key exactly when none of the field-of-view, focal-length, near-plane and far-plane curves has one. |
| XenkoConverter.CameraCurvesEmptyIff | sources/tools/SiliconStudio.Xenko.Importer.FBX/AnimationConverter.h:476-508 | A camera node adds no camera channel exactly when none of its four camera curves has a key. |
| XenkoConverter.NodeCurvesEmptyIff | sources/tools/SiliconStudio.Xenko.Importer.FBX/AnimationConverter.h:423-513 | A node's clip is empty, and so left out of the dictionary, exactly when none of its transform curves, and for a camera none of its camera curves, has a key. |
| XenkoConverter.CameraCurvesGuardAgrees | sources/tools/SiliconStudio.Xenko.Importer.FBX/AnimationConverter.h:490-495 | The code as written fails exactly when a focal-length curve exists and gives no channel; otherwise it gives the guarded curves. |
| XenkoConverter.KeylessFocalLengthFails | sources/tools/SiliconStudio.Xenko.Importer.FBX/AnimationConverter.h:490-495 | A focal-length curve without keys makes the code as written dereference a null channel, while the guarded version adds no channel. |
| XenkoConverter.HasAnimationIsListedTransform | sources/tools/SiliconStudio.Xenko.Importer.FBX/AnimationConverter.h:724-735 | HasAnimation (any single component curve) is the transform test of GetAnimationNodes: a node it accepts is listed, a node without a camera is listed exactly when it accepts it, and a complete triple implies it. |
| XenkoConverter.PivotDecisionTable | sources/tools/SiliconStudio.Xenko.Importer.FBX/AnimationConverter.h:608-683 | Both pivot sets become active and the destination takes the source rotation order; skeleton and FK/IK-effector nodes get zero destination pivots and offsets, and the source pre-rotation only when rotation is active; every other node gets a zero destination pre-rotation and the source pivots and offsets; point lights lose their post-rotation; target-less cameras and lights turn rotation on. |
| XenkoConverter.PivotDecisionsMeans | sources/tools/SiliconStudio.Xenko.Importer.FBX/AnimationConverter.h:608-688 | With distinct node ids, every node of the tree gets the decision table applied to its own original pivot data; other nodes keep theirs. |
| XenkoConverter.TransformCurvesDuration | sources/tools/SiliconStudio.Xenko.Importer.FBX/AnimationConverter.h:454-474 | The translation and scale rewrites keep every keyframe time, so Duration is the one the resampled channels give. |
| XenkoConverter.CameraCurvesDuration | sources/tools/SiliconStudio.Xenko.Importer.FBX/AnimationConverter.h:490-495 | The focal-length rewrite keeps every keyframe time, so Duration after the camera channels is the one the resampled channels give. |
| XenkoConverter.ClipDictionary.Add | sources/tools/SiliconStudio.Xenko.Importer.FBX/AnimationConverter.h:512 | The entry is appended and the dictionary's value view gains the clip's value. |
| XenkoConverter.AnimationConverter.constructor | sources/tools/SiliconStudio.Xenko.Importer.FBX/AnimationConverter.h:27-37 | The converter keeps the scene mapping and its scene, and is marked exported from Maya exactly when the application name is Maya. |
| XenkoConverter.AnimationConverter.Create | sources/tools/SiliconStudio.Xenko.Importer.FBX/AnimationConverter.h:29 | A null scene mapping is rejected with an argument-null error; otherwise a new converter over it. |
| XenkoConverter.AnimationConverter.HasAnimationData | sources/tools/SiliconStudio.Xenko.Importer.FBX/AnimationConverter.h:39-59 | False without stacks; otherwise true exactly when CheckAnimationData holds on the root for the first layer of every stack. |
| XenkoConverter.AnimationConverter.ExtractAnimationNodesNoInit | sources/tools/SiliconStudio.Xenko.Importer.FBX/AnimationConverter.h:95-113 | Null exactly when there is no stack; otherwise a new list with, for every stack, the listed nodes of the tree in depth-first pre-order. |
| XenkoConverter.AnimationConverter.GetAnimationNodes | sources/tools/SiliconStudio.Xenko.Importer.FBX/AnimationConverter.h:737-779 | Appends the names of the listed nodes of the subtree in depth-first pre-order. |
| XenkoConverter.AnimationConverter.ListChildren | sources/tools/SiliconStudio.Xenko.Importer.FBX/AnimationConverter.h:775-778 | Appends the listed names of the children's subtrees in child index order. |
| XenkoConverter.AnimationConverter.ListNode | sources/tools/SiliconStudio.Xenko.Importer.FBX/AnimationConverter.h:742-773 | Appends the node's name when any transform component curve exists, or else whenever the node has a camera (the camera test can never fail). |
| XenkoConverter.AnimationConverter.ProcessAnimationCurveVector | sources/tools/SiliconStudio.Xenko.Importer.FBX/AnimationConverter.h:140-168 | Null exactly when the resampler reports no animation, and the clip is then unchanged; otherwise a new cubic curve of the resampled keyframes is appended and Duration rises to its last time. |
| XenkoConverter.AnimationConverter.ProcessAnimationCurveRotation | sources/tools/SiliconStudio.Xenko.Importer.FBX/AnimationConverter.h:199-244 | Null exactly when the resampler reports no animation; otherwise a new quaternion curve with the Euler resample's times is appended and Duration rises to its last time. |
| XenkoConverter.AnimationConverter.ComputeFovFromFL | sources/tools/SiliconStudio.Xenko.Importer.FBX/AnimationConverter.h:401-410 | Every focal length becomes the vertical field of view in degrees; count, times and interpolation are unchanged. |
| XenkoConverter.AnimationConverter.AddPositionAndRotation | sources/tools/SiliconStudio.Xenko.Importer.FBX/AnimationConverter.h:439-447 | Appends the translation and rotation curves in order and returns the translation curve when there is one. |
| XenkoConverter.AnimationConverter.AddTransformCurves | sources/tools/SiliconStudio.Xenko.Importer.FBX/AnimationConverter.h:439-452 | Appends the translation, rotation and scale curves in that order and returns the translation and scale curves, each present exactly when resampled. |
| XenkoConverter.AnimationConverter.ProcessTransformCurves | sources/tools/SiliconStudio.Xenko.Importer.FBX/AnimationConverter.h:439-474 | The clip holds the three transform curves with translation values moved by the matrix modifier and scale values by its rotation part, and the Duration they give. |
| XenkoConverter.AnimationConverter.ProcessCameraChannel | sources/tools/SiliconStudio.Xenko.Importer.FBX/AnimationConverter.h:479-507 | A camera curve is resampled into a new named channel when it gives keyframes; otherwise nothing is added. |
| XenkoConverter.AnimationConverter.ProcessCameraCurves | sources/tools/SiliconStudio.Xenko.Importer.FBX/AnimationConverter.h:476-508 | The camera channels for field of view, focal length (converted to a field of view), near plane and far plane are appended in that order, each when it gives keyframes. This is the corrected definition: a focal-length curve without keys adds nothing here, where the code fails (see "## Findings"; XenkoConverter.CameraCurvesAsWritten is the code as written). |
| XenkoConverter.AnimationConverter.ProcessNodeCurves | sources/tools/SiliconStudio.Xenko.Importer.FBX/AnimationConverter.h:425-508 | A new clip holding the node's transform curves, then its camera curves, with the Duration they give. |
| XenkoConverter.AnimationConverter.AddNodeClip | sources/tools/SiliconStudio.Xenko.Importer.FBX/AnimationConverter.h:510-513 | The node's clip is added under its name exactly when it has a curve. |
| XenkoConverter.AnimationConverter.ProcessAnimationByCurve | sources/tools/SiliconStudio.Xenko.Importer.FBX/AnimationConverter.h:423-519 | Adds the clips of the subtree's nodes in depth-first pre-order, the node before its children. |
| XenkoConverter.AnimationConverter.ProcessChildClips | sources/tools/SiliconStudio.Xenko.Importer.FBX/AnimationConverter.h:515-518 | Adds the clips of the children's subtrees in child index order. |
| XenkoConverter.AnimationConverter.ProcessAnimation | sources/tools/SiliconStudio.Xenko.Importer.FBX/AnimationConverter.h:61-93 | A new dictionary; for the first stack only, the destination pivots are reset, every node's pivot state is set, the pivot animation is converted at 30 frames per second, the first layer's clips are added, and the pivot set is reset to the source. |
| XenkoConverter.AnimationConverter.ProcessStack | sources/tools/SiliconStudio.Xenko.Importer.FBX/AnimationConverter.h:73-86 | One stack: the pivot events in order, every node's pivot decision, and the clips of the stack's first layer. |
| XenkoConverter.AnimationConverter.SetPivotState | sources/tools/SiliconStudio.Xenko.Importer.FBX/AnimationConverter.h:610-683 | The node's pivot data becomes the decision table's result; nothing else changes. |
| XenkoConverter.AnimationConverter.SetPivotStateRecursive | sources/tools/SiliconStudio.Xenko.Importer.FBX/AnimationConverter.h:608-688 | The decision table is applied to the node, then to its children's subtrees in index order. |
| XenkoConverter.AnimationConverter.SetChildPivotStates | sources/tools/SiliconStudio.Xenko.Importer.FBX/AnimationConverter.h:684-687 | The decision table is applied to the children's subtrees in index order. |
| ParadoxConverter.RotationFrames | sources/tools/SiliconStudio.Paradox.Importer.FBX/AnimationConverter.cpp:169-209 | The rotation curve has the Euler resample's count and times, and each value is the converted quaternion of the angles multiplied by pi/180. |
| ParadoxConverter.TransformChannelNoneIff | sources/tools/SiliconStudio.Paradox.Importer.FBX/AnimationConverter.cpp:228-257 | A transform triple gives no curve exactly when one of its three curves is null or none has a key. |
| ParadoxConverter.SingleChannelNoneIff | sources/tools/SiliconStudio.Paradox.Importer.FBX/AnimationConverter.cpp:450-466 | A camera channel is absent exactly when the camera has no such curve or the curve has no key. |
| ParadoxConverter.TransformCurvesEmptyIff | sources/tools/SiliconStudio.Paradox.Importer.FBX/AnimationConverter.cpp:409-422 | A node adds no transform curve exactly when each of its translation, rotation and scaling triples is incomplete or has no key. |
| ParadoxConverter.CameraCurvesEmptyIff | sources/tools/SiliconStudio.Paradox.Importer.FBX/AnimationConverter.cpp:447-467 | A camera node adds no camera channel exactly when neither its field-of-view nor its focal-length curve has a key. |
| ParadoxConverter.NodeCurvesEmptyIff | sources/tools/SiliconStudio.Paradox.Importer.FBX/AnimationConverter.cpp:402-467 | A node adds no curve exactly when none of its triples is complete with a key and, for a camera, neither camera curve has a key. |
| ParadoxConverter.NodeCurvesNeedAnimationData | sources/tools/SiliconStudio.Paradox.Importer.FBX/AnimationConverter.cpp:486-509 | A node that fails CheckAnimationData's own test adds no curve. |
| ParadoxConverter.SceneCurvesNeedAnimationData | sources/tools/SiliconStudio.Paradox.Importer.FBX/AnimationConverter.cpp:60-91 | When the scene's clip has a curve, there is a stack and CheckAnimationData holds on the root for the first stack's first layer. |
| ParadoxConverter.SceneCurvesMeans | sources/tools/SiliconStudio.Paradox.Importer.FBX/AnimationConverter.cpp:402-473 | Every curve of the scene's clip is a curve of some node of the tree, and every curve of every node is in it. |
| ParadoxConverter.FovFramesMeans | sources/tools/SiliconStudio.Paradox.Importer.FBX/AnimationConverter.cpp:450-458 | The field-of-view channel keeps its count and times; each value is converted to radians, then multiplied by 0.6 unless the file came from Maya. |
| ParadoxConverter.CameraCurvesGuardAgrees | sources/tools/SiliconStudio.Paradox.Importer.FBX/AnimationConverter.cpp:450-466 | The code as written fails exactly when a field-of-view or focal-length curve exists and gives no channel; otherwise it gives the guarded curves. |
| ParadoxConverter.KeylessFieldOfViewFails | sources/tools/SiliconStudio.Paradox.Importer.FBX/AnimationConverter.cpp:450-458 | A field-of-view curve without keys makes the code as written dereference a null channel, while the guarded version adds no channel. |
| ParadoxConverter.TransformCurvesDuration | sources/tools/SiliconStudio.Paradox.Importer.FBX/AnimationConverter.cpp:424-431 | The translation rewrite keeps every keyframe time, so Duration is the one the resampled channels give. |
| ParadoxConverter.TranslationWriteLost | sources/tools/SiliconStudio.Paradox.Importer.FBX/AnimationConverter.cpp:424-431 | The transform curves as written (translation values left as resampled, because the write goes to a copy) equal the intended ones exactly when there is no translation channel or the matrix modifier leaves every resampled translation value unchanged. |
| ParadoxConverter.CameraCurvesDuration | sources/tools/SiliconStudio.Paradox.Importer.FBX/AnimationConverter.cpp:450-466 | The field-of-view rewrites keep every keyframe time, so Duration is the one the resampled channels give. |
| ParadoxConverter.ActivationMeans | sources/tools/SiliconStudio.Paradox.Importer.FBX/AnimationConverter.cpp:475-484 | With distinct node ids, every node of the tree has both pivot sets active and the rest of its pivot data unchanged; other nodes keep theirs. |
| ParadoxConverter.AnimationConverter.constructor | sources/tools/SiliconStudio.Paradox.Importer.FBX/AnimationConverter.cpp:26-36 | The converter keeps the scene mapping and its scene, and is marked exported from Maya exactly when the application name is Maya. |
| ParadoxConverter.AnimationConverter.Create | sources/tools/SiliconStudio.Paradox.Importer.FBX/AnimationConverter.cpp:28 | A null scene mapping is rejected with an argument-null error; otherwise a new converter over it. |
| ParadoxConverter.AnimationConverter.HasAnimationData | sources/tools/SiliconStudio.Paradox.Importer.FBX/AnimationConverter.cpp:38-58 | False without stacks; otherwise true exactly when CheckAnimationData holds on the root for the first layer of every stack. |
| ParadoxConverter.AnimationConverter.ExtractAnimationNodesNoInit | sources/tools/SiliconStudio.Paradox.Importer.FBX/AnimationConverter.cpp:94-112 | Null exactly when there is no stack; otherwise a new list with, for every stack, the listed nodes of the tree in depth-first pre-order. |
| ParadoxConverter.AnimationConverter.GetAnimationNodes | sources/tools/SiliconStudio.Paradox.Importer.FBX/AnimationConverter.cpp:520-565 | Appends the names of the listed nodes of the subtree in depth-first pre-order. |
| ParadoxConverter.AnimationConverter.ListChildren | sources/tools/SiliconStudio.Paradox.Importer.FBX/AnimationConverter.cpp:561-564 | Appends the listed names of the children's subtrees in child index order. |
| ParadoxConverter.AnimationConverter.ListNode | sources/tools/SiliconStudio.Paradox.Importer.FBX/AnimationConverter.cpp:525-559 | Appends the node's name when some transform triple is complete, or else whenever the node has a camera (the camera test can never fail). |
| ParadoxConverter.AnimationConverter.ProcessAnimationCurveVector | sources/tools/SiliconStudio.Paradox.Importer.FBX/AnimationConverter.cpp:139-167 | Null exactly when the resampler reports no animation, and the clip is then unchanged; otherwise a new cubic curve of the resampled keyframes is appended and Duration rises to its last time. |
| ParadoxConverter.AnimationConverter.ProcessAnimationCurveRotation | sources/tools/SiliconStudio.Paradox.Importer.FBX/AnimationConverter.cpp:169-221 | Null exactly when the resampler reports no animation; otherwise a new quaternion curve with the Euler resample's times is appended and Duration rises to its last time. |
| ParadoxConverter.AnimationConverter.ComputeFovFromFL | sources/tools/SiliconStudio.Paradox.Importer.FBX/AnimationConverter.cpp:380-389 | Every focal length becomes the vertical field of view in radians; count, times and interpolation are unchanged. |
| ParadoxConverter.AnimationConverter.AddTransformCurves | sources/tools/SiliconStudio.Paradox.Importer.FBX/AnimationConverter.cpp:409-422 | Appends the translation, rotation and scale curves, named after the node, in that order, and returns the translation curve when there is one. The curves it appends are the ones ParadoxConverter.TransformCurvesAsWritten gives, which is all the code as written adds. |
| ParadoxConverter.AnimationConverter.ProcessTransformCurves | sources/tools/SiliconStudio.Paradox.Importer.FBX/AnimationConverter.cpp:409-431 | The clip gains the three transform curves with translation values moved by the matrix modifier, and the Duration they give. This is the intended effect of the loop at line 429; as written, its write is lost (see "## Findings"). |
| ParadoxConverter.AnimationConverter.ProcessCameraChannel | sources/tools/SiliconStudio.Paradox.Importer.FBX/AnimationConverter.cpp:450-464 | A camera curve is resampled into a new field-of-view channel when it gives keyframes; otherwise nothing is added. |
| ParadoxConverter.AnimationConverter.ProcessFieldOfView | sources/tools/SiliconStudio.Paradox.Importer.FBX/AnimationConverter.cpp:450-458 | The field-of-view channel is appended with its angles in radians, times 0.6 unless the file came from Maya. This is the corrected definition: a field-of-view curve without keys adds nothing here, where the code fails (see "## Findings"; ParadoxConverter.CameraCurvesAsWritten is the code as written). |
| ParadoxConverter.AnimationConverter.ProcessCameraCurves | sources/tools/SiliconStudio.Paradox.Importer.FBX/AnimationConverter.cpp:447-467 | The field-of-view channel, then the focal-length channel converted to a field of view, each when it gives keyframes. This is the corrected definition: a field-of-view or focal-length curve without keys adds nothing here, where the code fails (see "## Findings"; ParadoxConverter.CameraCurvesAsWritten is the code as written). |
| ParadoxConverter.AnimationConverter.ProcessNodeCurves | sources/tools/SiliconStudio.Paradox.Importer.FBX/AnimationConverter.cpp:404-467 | The clip gains the node's transform curves, then its camera curves, and the Duration they give. |
| ParadoxConverter.AnimationConverter.ProcessCameraAfterTransform | sources/tools/SiliconStudio.Paradox.Importer.FBX/AnimationConverter.cpp:447-467 | A camera node's camera curves come after its transform curves. |
| ParadoxConverter.AnimationConverter.ProcessNodeAnimation | sources/tools/SiliconStudio.Paradox.Importer.FBX/AnimationConverter.cpp:402-473 | The clip gains the curves of the subtree's nodes in depth-first pre-order, the node before its children. |
| ParadoxConverter.AnimationConverter.ProcessChildAnimations | sources/tools/SiliconStudio.Paradox.Importer.FBX/AnimationConverter.cpp:469-472 | The clip gains the curves of the children's subtrees in child index order. |
| ParadoxConverter.AnimationConverter.SetPivotStateRecursive | sources/tools/SiliconStudio.Paradox.Importer.FBX/AnimationConverter.cpp:475-484 | Both pivot sets of the node, then of its children's subtrees in index order, are made active. |
| ParadoxConverter.AnimationConverter.SetChildPivotStates | sources/tools/SiliconStudio.Paradox.Importer.FBX/AnimationConverter.cpp:480-483 | The children's subtrees have their pivot sets made active in index order. |
| ParadoxConverter.AnimationConverter.ProcessStack | sources/tools/SiliconStudio.Paradox.Importer.FBX/AnimationConverter.cpp:72-86 | One stack: the pivot events in order, every node's pivot sets made active, and the curves of the stack's first layer. |
| ParadoxConverter.AnimationConverter.ProcessAnimation | sources/tools/SiliconStudio.Paradox.Importer.FBX/AnimationConverter.cpp:60-92 | Null exactly when the aggregate clip would have no curve; otherwise a new clip with the curves of the first stack's first layer in depth-first pre-order and the Duration they give; the pivot events of the first stack only, ending with the reset to the source pivot set. |
| TemplateParameters.ValidationSucceedsIff | sources/assets/SiliconStudio.Assets/Templates/TemplateGeneratorParameters.cs:200-218 | Validation passes exactly when a name, a description and a logger are set, an output directory is set for a Session scope, and the kind's own scope and session or package checks pass. |
| TemplateParameters.BaseCheckFirst | sources/assets/SiliconStudio.Assets/Templates/TemplateGeneratorParameters.cs:19-92 | The base checks run first: whatever the class, a failing base check is the error reported. |
| TemplateParameters.NullMemberReported | sources/assets/SiliconStudio.Assets/Templates/TemplateGeneratorParameters.cs:202-217 | A null Name is always reported first; a null Description, a Session scope's null OutputDirectory and a null Logger are each reported by name. |
| TemplateParameters.PackageScopeExactTypeOnly | sources/assets/SiliconStudio.Assets/Templates/TemplateGeneratorParameters.cs:51-63 | The Package scope is required only of the exact Package parameters class; a derived class passes with any scope and a package. |
| TemplateParameters.AssetScopeChecked | sources/assets/SiliconStudio.Assets/Templates/TemplateGeneratorParameters.cs:80-92 | Asset parameters pass the Package checks with any scope and then require scope Asset and a package. |
| TemplateParameters.NullDescriptionDereferenced | sources/assets/SiliconStudio.Assets/Templates/TemplateGeneratorParameters.cs:206-213 | With neither output directory nor description, the checks as written fail with a null dereference; the corrected order reports the missing Description. |
| TemplateParameters.BaseCheckAgrees | sources/assets/SiliconStudio.Assets/Templates/TemplateGeneratorParameters.cs:202-217 | The two orders fail on the same inputs and agree on the error except for a null Description under a null OutputDirectory. |
| TemplateParameters.TagLookupMeans | sources/assets/SiliconStudio.Assets/Templates/TemplateGeneratorParameters.cs:163-193 | GetTag fails exactly for a key HasTag denies; TryGetTag agrees where GetTag succeeds and gives the key's default where it fails. |
| TemplateParameters.TagAfterSet | sources/assets/SiliconStudio.Assets/Templates/TemplateGeneratorParameters.cs:195-198 | After SetTag(k, v), HasTag(k) holds and GetTag(k) is v; every other key reads as before. |
| TemplateParameters.TemplateGeneratorParameters.ForSession | sources/assets/SiliconStudio.Assets/Templates/TemplateGeneratorParameters.cs:11-17 | A new Session parameters object has every property null and no tag. |
| TemplateParameters.TemplateGeneratorParameters.ForPackage | sources/assets/SiliconStudio.Assets/Templates/TemplateGeneratorParameters.cs:36-38 | A new Package parameters object has every property null and no tag. |
| TemplateParameters.TemplateGeneratorParameters.CopyForPackage | sources/assets/SiliconStudio.Assets/Templates/TemplateGeneratorParameters.cs:40-44 | The copy constructor copies Name, Namespace, OutputDirectory, Description, Logger and the tags, then sets the package. |
| TemplateParameters.TemplateGeneratorParameters.ForAsset | sources/assets/SiliconStudio.Assets/Templates/TemplateGeneratorParameters.cs:68-74 | SourceFiles is empty when no files are given, otherwise a copy of them in the given order. |
| TemplateParameters.TemplateGeneratorParameters.Validate | sources/assets/SiliconStudio.Assets/Templates/TemplateGeneratorParameters.cs:151-154 | Validate reports the first failing check of the object's class, and passes exactly under the conditions of ValidationSucceedsIff. This is the corrected order, with Description checked for null before its Scope is read; the code as written fails with a null dereference instead (see "## Findings"; TemplateParameters.BaseCheckAsWritten is the code as written). |
| TemplateParameters.TemplateGeneratorParameters.GetTag | sources/assets/SiliconStudio.Assets/Templates/TemplateGeneratorParameters.cs:163-171 | The stored value, or KeyNotFoundException for a missing key. |
| TemplateParameters.TemplateGeneratorParameters.TryGetTag | sources/assets/SiliconStudio.Assets/Templates/TemplateGeneratorParameters.cs:179-182 | The stored value, or the key's default value. |
| TemplateParameters.TemplateGeneratorParameters.HasTag | sources/assets/SiliconStudio.Assets/Templates/TemplateGeneratorParameters.cs:190-193 | True exactly when the key is stored. |
| TemplateParameters.TemplateGeneratorParameters.SetTag | sources/assets/SiliconStudio.Assets/Templates/TemplateGeneratorParameters.cs:195-198 | The key maps to the value, added or replaced; the other keys, the validated properties and SourceFiles are unchanged. |

## Left out

- Floating point: keyframe values, angles and film sizes are `real`. Single-precision rounding, and the float cast of `FbxTime` to engine time, are not modelled.
- Trigonometry (`atan` in the field-of-view formula), the Euler-to-quaternion conversion, the coordinate-system matrices (`rotationAdjust`, `matrixModifier`, `TransformCoordinate`, `TransformNormal`) and the pivot post-rotation maths are left uninterpreted as fields of `Fbx.Numerics`. Only where they are applied, and to which keyframes, is modelled.
- FBX SDK calls are modelled as data. `GetCurve` is an optional curve, `KeyGetTime`/`KeyGetInterpolation` are the curve's key list, and `Evaluate` is the curve's `evaluate` function. The evaluation-index cache that `Evaluate` takes is dropped, because it only speeds up evaluation.
- `FBXTimeToTimeSpan` is not part of this model. The engine time of a keyframe is taken to be its FBX time.
- `ResetPivotSet` and `ConvertPivotAnimationRecursive` are SDK code. `Fbx.Scene` records them, in order, as pivot events, and their effect on the pivot data is not modelled. `SetPivotState`, `SetRotationActive`, `SetRotationOrder` and the pivot/offset setters are modelled as updates of the node's pivot data.
- The frame length `oneFrame` comes from the scene's time mode. It is a field of `Fbx.Scene` and is taken to be positive. The `framerate` local in the helper is computed and never used, so it is not modelled.
- `maxErrorThreshold` is passed to `ProcessAnimationCurveVector` and `ProcessAnimationCurveRotation` and never read, so it is not modelled.
- The reference per-node `ProcessAnimation` (sources/tools/SiliconStudio.Xenko.Importer.FBX/AnimationConverter.h:521-606) is marked as unused in the code. It is not modelled, and neither are `CreateCurve` (sources/tools/SiliconStudio.Xenko.Importer.FBX/AnimationConverter.h:170-197), which only it calls, and `CurveEvaluator` (sources/tools/SiliconStudio.Xenko.Importer.FBX/AnimationConverter.h:117-137, sources/tools/SiliconStudio.Paradox.Importer.FBX/AnimationConverter.cpp:116-136), which nothing calls. `HasAnimation` (sources/tools/SiliconStudio.Xenko.Importer.FBX/AnimationConverter.h:724-735), which the reference code uses, is modelled and related to `GetAnimationNodes`.
- The Paradox helper declares `index`, `discontinuity` and `needUpdate` and never uses them to decide anything, so they are not modelled.
- XenkoResampler.ProcessAnimationCurveFloatsHelper: for a null curve, `hasDiscontinuity[i]` is never written, and line 367 reads it uninitialised. The model takes it as false, so a null channel always writes 0.
- The keyframe `key` written to the list is a struct copy, and `values` aliases its value field. The model keeps the values in an array and copies it into each emitted keyframe, which has the same effect.
- XenkoResampler.ProcessAnimationCurveFloatsHelper and ParadoxResampler.ProcessAnimationCurveFloatsHelper require `numCurves <= 4`, the size of the local arrays, and at most as many curves as are passed. Every caller passes 1 or 3.
- XenkoResampler.ResampleFollowsKeys, XenkoResampler.ResampleShape, ParadoxResampler.ResampleFollowsKeys and ParadoxResampler.ResampleShape assume that each curve's keys are in time order and that key times are finite, as an FBX curve's keys are. For other inputs, only the loop-equals-function contracts of the helpers are stated.
- XenkoResampler.ResampleFollowsKeys, XenkoResampler.ResampleShape, XenkoResampler.ProcessAnimationCurveFloatsHelper, ParadoxResampler.ResampleFollowsKeys, ParadoxResampler.ResampleShape and ParadoxResampler.ProcessAnimationCurveFloatsHelper: FbxTime is a signed 64-bit count, and the model's times are unbounded integers that never wrap. After the clamped last sample, the loop still adds one frame to the time. By Sampling.SampleIncrementsFit, that addition overflows exactly when the end time is above the largest time minus one frame. The source's time then wraps to a negative value and the loop runs again, while the model stops. These members describe the source only for end times up to the largest time minus one frame.
- Animations.AnimationClip.AddCurve: the engine's `AddCurve` is not part of this model. Its effect is modelled as appending the named curve, and what it does with a name added twice is not modelled.
- XenkoConverter.ClipDictionary.Add: `Dictionary.Add` throws on a duplicate node name. The model appends the entry, and the duplicate-name error is not modelled.
- XenkoConverter.PivotDecisionsMeans, ParadoxConverter.ActivationMeans and ImportCommon.PivotsAfterEachNode state their per-node result only for trees whose node ids are distinct, which is true of an FBX scene's node table.
- TemplateParameters: `ILogger`, `Session`, `Package`, `UDirectory` and `UFile` are opaque values that are only compared with null. `TemplateDescription` is reduced to its `Scope`. `PropertyKey` is compared by value, with its default value as a field. The generic `GetTag<T>` is modelled on `object?`.
- TemplateParameters.TemplateGeneratorParameters: the C# class hierarchy (base, Session, Package, Asset, and subclasses of Package) is modelled as one class with a `kind` that selects the `ValidateParameters` overrides to run. `GetType() == typeof(...)` is the kind `PackageParameters` as opposed to `PackageSubclass`.
- XenkoConverter.AnimationConverter.ProcessCameraCurves, ParadoxConverter.AnimationConverter.ProcessFieldOfView and ParadoxConverter.AnimationConverter.ProcessCameraCurves follow the corrected definition: a camera curve without keys adds no channel. The code as written fails with a null dereference there. CameraCurvesAsWritten in each converter models that, and the Findings rows relate the two.
- TemplateParameters.TemplateGeneratorParameters.Validate follows the corrected order, which checks Description for null before reading its Scope. With OutputDirectory and Description both null, the code as written fails with a null dereference. TemplateParameters.BaseCheckAsWritten models that.
- ParadoxConverter.AnimationConverter.ProcessTransformCurves: the model moves every translation value by the matrix modifier, as the loop at sources/tools/SiliconStudio.Paradox.Importer.FBX/AnimationConverter.cpp:424-431 intends. As written, the loop assigns to a copy of a value-type keyframe, so the stored values do not change. ParadoxConverter.TransformCurvesAsWritten models that, and ParadoxConverter.TranslationWriteLost states when the two differ. How the C++/CLI compiler treats a write through a value-type indexer is inferred from the text, not observed.
- XenkoConverter.AnimationConverter.ProcessAnimation and ParadoxConverter.AnimationConverter.ProcessAnimation: `ConvertPivotAnimationRecursive(animStack, destination pivot, 30)` bakes the destination pivots into the animation curves at 30 frames per second before the curves are read. The model records the call as a pivot event only. The curves these members read are taken to be the layer's curves as they were before the conversion.
- Exceptions are modelled as `Result` failures: the `ArgumentNullException` of the converter constructor, the `InvalidOperationException` of validation, and the `KeyNotFoundException` of `GetTag`.

## Findings

| source | as written | input that shows it | evidently intended | confidence | as-written member | corrected member |
|---|---|---|---|---|---|---|
| sources/tools/SiliconStudio.Paradox.Importer.FBX/AnimationConverter.cpp:310-320 | After the advance loop, the constant flag is the interpolation of the key *after* the sample time. It starts false and is only set on stepping onto a key, so the flag of key 0 is never read. A discontinuity is therefore marked at the sample that reaches a constant key k of 1 or more, where the curve does not jump. The real step at key k+1 is smoothed over unless key k+1 is constant too. For a constant key 0, no discontinuity is marked at all. ParadoxResampler.ResampleFollowsKeys states the general case. | One curve with keys 0 (Constant, value 1) and 10 (Linear, value 2), one frame = 10 ticks. Output: (0, 1), (10, 2); the step at 10 is smoothed over. | A step at time 10: the held 1 twice, then 2 twice. The Xenko helper starts at key -1 and does this. | not executed | ResamplerComparison.ParadoxLosesConstantStep | XenkoResampler.ResampleFollowsKeys |
| sources/tools/SiliconStudio.Xenko.Importer.FBX/AnimationConverter.h:490-495 | `ComputeFovFromFL` runs on the channel `ProcessAnimationCurveVector` returns without a null test. A focal-length curve with no key gives a null channel. | A camera whose FocalLength curve exists but has no keys. | No focal-length channel is added, as for the other camera curves. | not executed | XenkoConverter.KeylessFocalLengthFails | XenkoConverter.CameraCurvesGuardAgrees |
| sources/tools/SiliconStudio.Paradox.Importer.FBX/AnimationConverter.cpp:450-466 | `ConvertDegreeToRadians`, `MultiplyChannel` and `ComputeFovFromFL` run on the returned channels without a null test. | A camera whose FieldOfViewY curve exists but has no keys. | No field-of-view channel is added. | not executed | ParadoxConverter.KeylessFieldOfViewFails | ParadoxConverter.CameraCurvesGuardAgrees |
| sources/tools/SiliconStudio.Paradox.Importer.FBX/AnimationConverter.cpp:424-431 | The loop assigns `translationCurve->KeyFrames[i].Value`. The list's indexer returns a copy of the value-type `KeyFrameData`, and the copy is never stored back. Every other in-place rewrite in the file (lines 361-398) copies the keyframe and stores it back. The Xenko version of this loop does the same. | A node with a keyed translation triple and a matrix modifier that moves one of its resampled values (any modifier with a translation part). | Every stored translation value is moved by the matrix modifier. | not executed | ParadoxConverter.TranslationWriteLost | ParadoxConverter.AnimationConverter.ProcessTransformCurves |
| sources/assets/SiliconStudio.Assets/Templates/TemplateGeneratorParameters.cs:206-213 | `Description.Scope` is read at line 206, before the null check of `Description` at line 210. | Name set, OutputDirectory null, Description null. | The missing Description is reported as the error. | not executed | TemplateParameters.NullDescriptionDereferenced | TemplateParameters.ValidationSucceedsIff |
