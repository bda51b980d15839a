/** The collaborators of the position task that are not part of this model:
    the Reflexxes trajectory step and the conversion helpers between the
    component's types and the Reflexxes records. They are passed in as
    functions. The positional crop is modelled as a per-joint clamp. */
module Conversions {
  import opened Values
  import opened TrajectoryTypes

  /** What one call of the trajectory step returns: its result code and the
      output record it filled. */
  datatype EngineStep = EngineStep(result: ResultValue, output: OutputParameters)

  /** The opaque helpers, one function each. */
  datatype Collaborators = Collaborators(
    /** `rml_api->RMLPosition(input, output, flags)`; the flags are reduced to
        their positional-limits behaviour. */
    engine: (InputParameters, PositionalLimitsBehavior) -> EngineStep,
    /** `target2RmlTypes(target, motion_constraints, input)`: writes the target into the input record. */
    targetToRml: (ConstrainedJointsCmd, MotionConstraints, InputParameters) -> InputParameters,
    /** `jointState2RmlTypes(joint_state, names, flags, input)`: writes a
        measurement into the input record. */
    jointStateToRml: (Joints, seq<string>, InputParameters) -> InputParameters,
    /** `rmlTypes2JointState(input, sample)`: the joint sample made from the input record. */
    rmlToJointState: (InputParameters, Joints) -> Joints,
    /** `rmlTypes2Command(output, command)`: the command made from the output record. */
    rmlToCommand: (OutputParameters, Joints) -> Joints)
  {
    /** The helpers write into the fixed-size Reflexxes vectors, so they keep
        every vector at `dof` entries. */
    ghost predicate FitDof(dof: nat) {
      (forall t: ConstrainedJointsCmd, m: MotionConstraints, p: InputParameters ::
         p.Sized(dof) ==> targetToRml(t, m, p).Sized(dof)) &&
      (forall j: Joints, names: seq<string>, p: InputParameters ::
         p.Sized(dof) ==> jointStateToRml(j, names, p).Sized(dof)) &&
      (forall p: InputParameters, b: PositionalLimitsBehavior ::
         engine(p, b).output.Sized(dof))
    }

    /** Writing the target leaves the current state of the input record alone. */
    ghost predicate TargetKeepsCurrent() {
      forall t: ConstrainedJointsCmd, m: MotionConstraints, p: InputParameters ::
        targetToRml(t, m, p).Current() == p.Current()
    }

    /** Writing a measurement changes only the current state of the input record. */
    ghost predicate StateWritesOnlyCurrent() {
      forall j: Joints, names: seq<string>, p: InputParameters ::
        jointStateToRml(j, names, p) == p.WithCurrent(jointStateToRml(j, names, p).Current())
    }

    /** The current state written from a measurement depends on the measurement
        and the names only, not on what the record held before. */
    ghost predicate StateFromMeasurementOnly() {
      forall j: Joints, names: seq<string>, p: InputParameters, q: InputParameters ::
        jointStateToRml(j, names, p).Current() == jointStateToRml(j, names, q).Current()
    }

    /** The trajectory step never answers with the startup sentinel, which is
        a code of this component and not of Reflexxes. */
    ghost predicate NeverUninitialized() {
      forall p: InputParameters, b: PositionalLimitsBehavior :: engine(p, b).result != RmlNotInitialized
    }
  }

  /** One joint's target cropped at its limits, as C++ comparisons do it:
      above a set maximum it becomes the maximum, then below a set minimum it
      becomes the minimum. A NaN target or a NaN limit takes no part. */
  function Crop(target: Double, lo: Double, hi: Double): (r: Double)
    ensures target.NaN? ==> r == NaN
    ensures target.Num? && lo.Num? && hi.Num? && lo.x <= hi.x ==> r.Num? && lo.x <= r.x <= hi.x
    ensures !Less(target, lo) && !Less(hi, target) ==> r == target
    ensures r == target || r == lo || r == hi
  {
    var below := if Less(hi, target) then hi else target;
    if Less(below, lo) then lo else below
  }

  /** `cropTargetAtPositionLimits(input)`: every joint's target position cropped
      at that joint's position limits; nothing else changes. */
  function CropTargetAtPositionLimits(p: InputParameters): (q: InputParameters)
    ensures q == p.(targetPosition := q.targetPosition)
    ensures |q.targetPosition| == |p.targetPosition|
    ensures forall i :: 0 <= i < |p.targetPosition| && i < |p.minPosition| && i < |p.maxPosition| ==>
      q.targetPosition[i] == Crop(p.targetPosition[i], p.minPosition[i], p.maxPosition[i])
  {
    p.(targetPosition := seq(|p.targetPosition|, i requires 0 <= i < |p.targetPosition| =>
         if i < |p.minPosition| && i < |p.maxPosition|
         then Crop(p.targetPosition[i], p.minPosition[i], p.maxPosition[i])
         else p.targetPosition[i]))
  }

  /** After cropping, every set, well-ordered pair of limits holds its target. */
  lemma CroppedWithinLimits(p: InputParameters, dof: nat, i: nat)
    requires p.Sized(dof) && i < dof
    requires p.minPosition[i].Num? && p.maxPosition[i].Num? && p.minPosition[i].x <= p.maxPosition[i].x
    requires p.targetPosition[i].Num?
    ensures var q := CropTargetAtPositionLimits(p);
      q.targetPosition[i].Num? && p.minPosition[i].x <= q.targetPosition[i].x <= p.maxPosition[i].x
  {
  }

  /** Cropping twice is cropping once. */
  lemma CropIdempotent(p: InputParameters)
    ensures CropTargetAtPositionLimits(CropTargetAtPositionLimits(p)) == CropTargetAtPositionLimits(p)
  {
  }

  /** A single joint with limits [-1, 1] and a requested target of 2 is sent to
      the generator with target 1. */
  lemma CropExample()
    ensures Crop(Num(2.0), Num(-1.0), Num(1.0)) == Num(1.0)
    ensures Crop(Num(0.5), Num(-1.0), Num(1.0)) == Num(0.5)
    ensures Crop(Num(-3.0), Num(-1.0), Num(1.0)) == Num(-1.0)
  {
  }
}
