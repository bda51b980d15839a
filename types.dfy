/** The component's types (trajectory_generationTypes.hpp): per-joint motion
    constraints and their checks, the constrained joint command, the result
    codes of the trajectory generator and the parameter records sized to the
    number of degrees of freedom. */
module TrajectoryTypes {
  import opened Values

  /** What happens when a target lies outside the position limits (Type IV only). */
  datatype PositionalLimitsBehavior =
    | PositionalLimitsIgnore
    | PositionalLimitsErrorMsgOnly
    | PositionalLimitsActivelyPrevent

  // ---------------------------------------------------------------------------
  // Motion constraints
  // ---------------------------------------------------------------------------

  /** The five limits of one joint, as a value (what vectors of constraints hold).
      A field is "unset" when it is NaN. */
  datatype Constraint = Constraint(
    maxPosition: Double,
    minPosition: Double,
    maxSpeed: Double,
    maxAcceleration: Double,
    maxJerk: Double)
  {
    predicate HasMaxPosition() { maxPosition.IsSet() }
    predicate HasMinPosition() { minPosition.IsSet() }
    predicate HasMaxVelocity() { maxSpeed.IsSet() }
    predicate HasMaxAcceleration() { maxAcceleration.IsSet() }
    predicate HasMaxJerk() { maxJerk.IsSet() }

    /** Every one of the five fields is set. */
    predicate IsComplete() {
      HasMaxPosition() && HasMinPosition() && HasMaxVelocity() && HasMaxAcceleration() && HasMaxJerk()
    }

    /** Whether the check that reports `e` fires on this constraint. The position
        checks exist only in a Type IV build. */
    predicate Violates(typeIV: bool, e: ConstraintError) {
      match e
      case MaxPositionInvalid => typeIV && !HasMaxPosition()
      case MinPositionInvalid => typeIV && !HasMinPosition()
      case PositionsNotOrdered => typeIV && LessEq(maxPosition, minPosition)
      case MaxSpeedInvalid => !HasMaxVelocity()
      case MaxAccelerationInvalid => !HasMaxAcceleration()
      case MaxJerkInvalid => !HasMaxJerk()
      case MaxSpeedNotPositive => LessEq(maxSpeed, Num(0.0))
      case MaxAccelerationNotPositive => LessEq(maxAcceleration, Num(0.0))
      case MaxJerkNotPositive => LessEq(maxJerk, Num(0.0))
    }

    /** `MotionConstraint::validate`: runs the checks in order and throws at the
        first one that fires; returns without effect when none fires. */
    function Validate(typeIV: bool): (r: Outcome<ConstraintError>)
      ensures r.Fail? <==>
        (typeIV && (!HasMaxPosition() || !HasMinPosition() || maxPosition.x <= minPosition.x))
        || !HasMaxVelocity() || !HasMaxAcceleration() || !HasMaxJerk()
        || maxSpeed.x <= 0.0 || maxAcceleration.x <= 0.0 || maxJerk.x <= 0.0
    {
      if typeIV && !HasMaxPosition() then Fail(MaxPositionInvalid)
      else if typeIV && !HasMinPosition() then Fail(MinPositionInvalid)
      else if typeIV && LessEq(maxPosition, minPosition) then Fail(PositionsNotOrdered)
      else if !HasMaxVelocity() then Fail(MaxSpeedInvalid)
      else if !HasMaxAcceleration() then Fail(MaxAccelerationInvalid)
      else if !HasMaxJerk() then Fail(MaxJerkInvalid)
      else if LessEq(maxSpeed, Num(0.0)) then Fail(MaxSpeedNotPositive)
      else if LessEq(maxAcceleration, Num(0.0)) then Fail(MaxAccelerationNotPositive)
      else if LessEq(maxJerk, Num(0.0)) then Fail(MaxJerkNotPositive)
      else Pass
    }

    /** The value `applyDefaultIfUnset(d)` leaves behind: each unset field is
        replaced by the default's field, whatever that is. */
    function WithDefaults(d: Constraint): Constraint {
      Constraint(
        if HasMaxPosition() then maxPosition else d.maxPosition,
        if HasMinPosition() then minPosition else d.minPosition,
        if HasMaxVelocity() then maxSpeed else d.maxSpeed,
        if HasMaxAcceleration() then maxAcceleration else d.maxAcceleration,
        if HasMaxJerk() then maxJerk else d.maxJerk)
    }
  }

  /** The exceptions of `MotionConstraint::validate`, in the order it checks them. */
  datatype ConstraintError =
    | MaxPositionInvalid
    | MinPositionInvalid
    | PositionsNotOrdered
    | MaxSpeedInvalid
    | MaxAccelerationInvalid
    | MaxJerkInvalid
    | MaxSpeedNotPositive
    | MaxAccelerationNotPositive
    | MaxJerkNotPositive
  {
    /** Position of the check in `validate`. */
    function Rank(): nat {
      match this
      case MaxPositionInvalid => 0
      case MinPositionInvalid => 1
      case PositionsNotOrdered => 2
      case MaxSpeedInvalid => 3
      case MaxAccelerationInvalid => 4
      case MaxJerkInvalid => 5
      case MaxSpeedNotPositive => 6
      case MaxAccelerationNotPositive => 7
      case MaxJerkNotPositive => 8
    }
  }

  /** The default-constructed constraint: nothing is set. */
  function UnsetConstraint(): (c: Constraint)
    ensures !c.HasMaxPosition() && !c.HasMinPosition() && !c.HasMaxVelocity()
    ensures !c.HasMaxAcceleration() && !c.HasMaxJerk()
  {
    Constraint(NaN, NaN, NaN, NaN, NaN)
  }

  /** `validate` succeeds exactly when no check fires, and when it fails it
      reports the first check that fires. */
  lemma ValidateReportsFirstViolation(c: Constraint, typeIV: bool)
    ensures c.Validate(typeIV).Pass? <==> forall e: ConstraintError :: !c.Violates(typeIV, e)
    ensures c.Validate(typeIV).Fail? ==>
      var err := c.Validate(typeIV).error;
      c.Violates(typeIV, err) && forall e: ConstraintError :: e.Rank() < err.Rank() ==> !c.Violates(typeIV, e)
  {
    if c.Validate(typeIV).Fail? {
      assert c.Violates(typeIV, c.Validate(typeIV).error);
    }
  }

  /** Without Type IV the position fields take no part in `validate`: replacing
      them by anything, unset or inverted, gives the same verdict. */
  lemma PositionsIgnoredWithoutTypeIV(c: Constraint, maxPosition: Double, minPosition: Double)
    ensures c.(maxPosition := maxPosition, minPosition := minPosition).Validate(false) == c.Validate(false)
    ensures c.Validate(false).Fail? ==> c.Validate(false).error.Rank() >= 3
  {
  }

  /** Fields that were set are kept; each unset field takes the default's value,
      even an unset one. */
  lemma DefaultsFillOnlyUnsetFields(c: Constraint, d: Constraint)
    ensures var r := c.WithDefaults(d);
      (r.maxPosition == if c.HasMaxPosition() then c.maxPosition else d.maxPosition) &&
      (r.minPosition == if c.HasMinPosition() then c.minPosition else d.minPosition) &&
      (r.maxSpeed == if c.HasMaxVelocity() then c.maxSpeed else d.maxSpeed) &&
      (r.maxAcceleration == if c.HasMaxAcceleration() then c.maxAcceleration else d.maxAcceleration) &&
      (r.maxJerk == if c.HasMaxJerk() then c.maxJerk else d.maxJerk)
    ensures var r := c.WithDefaults(d);
      (r.HasMaxPosition() <==> c.HasMaxPosition() || d.HasMaxPosition()) &&
      (r.HasMinPosition() <==> c.HasMinPosition() || d.HasMinPosition()) &&
      (r.HasMaxVelocity() <==> c.HasMaxVelocity() || d.HasMaxVelocity()) &&
      (r.HasMaxAcceleration() <==> c.HasMaxAcceleration() || d.HasMaxAcceleration()) &&
      (r.HasMaxJerk() <==> c.HasMaxJerk() || d.HasMaxJerk())
  {
  }

  /** Applying the same default twice is applying it once. */
  lemma DefaultsIdempotent(c: Constraint, d: Constraint)
    ensures c.WithDefaults(d).WithDefaults(d) == c.WithDefaults(d)
  {
  }

  /** A default with all five fields set leaves no field unset. */
  lemma CompleteDefaultsComplete(c: Constraint, d: Constraint)
    requires d.IsComplete()
    ensures c.WithDefaults(d).IsComplete()
  {
  }

  /** Defaulting an unset constraint yields the default; a complete constraint
      ignores the default. */
  lemma DefaultsIdentities(c: Constraint, d: Constraint)
    ensures UnsetConstraint().WithDefaults(d) == d
    ensures c.IsComplete() ==> c.WithDefaults(d) == c
  {
  }

  /** The C++ struct `MotionConstraint` as a variable: its fields are written in
      place by `applyDefaultIfUnset`. */
  class MotionConstraint {
    var maxPosition: Double
    var minPosition: Double
    var maxSpeed: Double
    var maxAcceleration: Double
    var maxJerk: Double

    /** The current contents of the struct. */
    function Value(): Constraint
      reads this
    {
      Constraint(maxPosition, minPosition, maxSpeed, maxAcceleration, maxJerk)
    }

    /** The default constructor marks every field unset. */
    constructor ()
      ensures Value() == UnsetConstraint()
    {
      maxPosition := NaN;
      minPosition := NaN;
      maxSpeed := NaN;
      maxAcceleration := NaN;
      maxJerk := NaN;
    }

    /** Copies each unset field from `defaults`, one field at a time. */
    method ApplyDefaultIfUnset(defaults: MotionConstraint)
      modifies this
      ensures Value() == old(Value()).WithDefaults(old(defaults.Value()))
    {
      if !maxPosition.IsSet() { maxPosition := defaults.maxPosition; }
      if !minPosition.IsSet() { minPosition := defaults.minPosition; }
      if !maxSpeed.IsSet() { maxSpeed := defaults.maxSpeed; }
      if !maxAcceleration.IsSet() { maxAcceleration := defaults.maxAcceleration; }
      if !maxJerk.IsSet() { maxJerk := defaults.maxJerk; }
    }
  }

  /** `MotionConstraints`: a named vector of constraints, one per joint. */
  datatype MotionConstraints = MotionConstraints(names: seq<string>, elements: seq<Constraint>) {
    /** `NamedVector::size()`: the number of elements. */
    function Size(): nat { |elements| }
  }

  // ---------------------------------------------------------------------------
  // Joint samples and commands
  // ---------------------------------------------------------------------------

  /** Position, velocity and acceleration of one joint (`base::JointState`). */
  datatype Joint = Joint(position: Double, speed: Double, acceleration: Double)

  /** A named vector of joint states with a timestamp in microseconds
      (`base::samples::Joints` and `base::commands::Joints`). */
  datatype Joints = Joints(time: int, names: seq<string>, elements: seq<Joint>)

  /** The empty named vector. */
  const NoJoints := Joints(0, [], [])

  /** A joint command with optional per-joint inline constraints. */
  datatype ConstrainedJointsCmd = ConstrainedJointsCmd(joints: Joints, motionConstraints: seq<Constraint>) {
    /** `ConstrainedJointsCmd::validate`. */
    function Validate(): (r: Outcome<CommandError>)
      ensures r.Pass? <==>
        |joints.names| == |joints.elements| &&
        (|motionConstraints| == 0 || |motionConstraints| == |joints.elements|)
      ensures r == Fail(NameCountMismatch) <==> |joints.names| != |joints.elements|
    {
      if |joints.names| != |joints.elements| then Fail(NameCountMismatch)
      else if |motionConstraints| != 0 && |motionConstraints| != |joints.elements| then Fail(ConstraintCountMismatch)
      else Pass
    }
  }

  /** The exceptions of `ConstrainedJointsCmd::validate`. */
  datatype CommandError = NameCountMismatch | ConstraintCountMismatch

  // ---------------------------------------------------------------------------
  // Result codes
  // ---------------------------------------------------------------------------

  /** `ReflexxesResultValue`. */
  datatype ResultValue =
    | RmlWorking
    | RmlFinalStateReached
    | RmlNoError
    | RmlError
    | RmlErrorInvalidInputValues
    | RmlErrorExecutionTimeCalculation
    | RmlErrorSynchronization
    | RmlErrorNumberOfDofs
    | RmlErrorNoPhaseSynchronization
    | RmlErrorNullPointer
    | RmlErrorExecutionTimeTooBig
    | RmlErrorUserTimeOutOfRange
    | RmlErrorPositionalLimits
    | RmlErrorOverrideOutOfRange
    | RmlNotInitialized
  {
    /** The `RML_ERROR...` variants. */
    predicate IsError() {
      !(RmlWorking? || RmlFinalStateReached? || RmlNoError? || RmlNotInitialized?)
    }

    /** The enumerator's integer value. */
    function Code(): (n: int)
      ensures n < 0 <==> IsError() || RmlNotInitialized?
      ensures RmlWorking? <==> n == 0
      ensures RmlFinalStateReached? <==> n == 1
      ensures RmlNoError? <==> n == 2
    {
      match this
      case RmlWorking => 0
      case RmlFinalStateReached => 1
      case RmlNoError => 2
      case RmlError => -1
      case RmlErrorInvalidInputValues => -100
      case RmlErrorExecutionTimeCalculation => -101
      case RmlErrorSynchronization => -102
      case RmlErrorNumberOfDofs => -103
      case RmlErrorNoPhaseSynchronization => -104
      case RmlErrorNullPointer => -105
      case RmlErrorExecutionTimeTooBig => -106
      case RmlErrorUserTimeOutOfRange => -107
      case RmlErrorPositionalLimits => -108
      case RmlErrorOverrideOutOfRange => -109
      case RmlNotInitialized => -200
    }
  }

  /** The enumerator with integer value `n`, if there is one. */
  function ResultFromCode(n: int): (r: Option<ResultValue>)
    ensures r.Some? ==> r.value.Code() == n
  {
    if n == 0 then Some(RmlWorking)
    else if n == 1 then Some(RmlFinalStateReached)
    else if n == 2 then Some(RmlNoError)
    else if n == -1 then Some(RmlError)
    else if -109 <= n <= -100 then
      Some([RmlErrorInvalidInputValues, RmlErrorExecutionTimeCalculation, RmlErrorSynchronization,
            RmlErrorNumberOfDofs, RmlErrorNoPhaseSynchronization, RmlErrorNullPointer,
            RmlErrorExecutionTimeTooBig, RmlErrorUserTimeOutOfRange, RmlErrorPositionalLimits,
            RmlErrorOverrideOutOfRange][-100 - n])
    else if n == -200 then Some(RmlNotInitialized)
    else None
  }

  /** Every enumerator is recovered from its integer value. */
  lemma CodeRoundTrip(r: ResultValue)
    ensures ResultFromCode(r.Code()) == Some(r)
  {
  }

  /** The integer values are pairwise distinct. */
  lemma CodesDistinct(a: ResultValue, b: ResultValue)
    ensures a.Code() == b.Code() ==> a == b
  {
  }

  // ---------------------------------------------------------------------------
  // Parameter records of the trajectory generator
  // ---------------------------------------------------------------------------

  /** Position, velocity and acceleration vectors of all joints. */
  datatype MotionState = MotionState(position: seq<Double>, velocity: seq<Double>, acceleration: seq<Double>) {
    predicate Sized(dof: nat) {
      |position| == dof && |velocity| == dof && |acceleration| == dof
    }
  }

  /** Input parameters of the trajectory generator (`ReflexxesInputParameters`).
      The `u_int8_t` selection flags are booleans here. */
  datatype InputParameters = InputParameters(
    selection: seq<bool>,
    currentPosition: seq<Double>,
    currentVelocity: seq<Double>,
    currentAcceleration: seq<Double>,
    maxPosition: seq<Double>,
    minPosition: seq<Double>,
    maxVelocity: seq<Double>,
    maxAcceleration: seq<Double>,
    maxJerk: seq<Double>,
    targetPosition: seq<Double>,
    targetVelocity: seq<Double>,
    minSynchronizationTime: Double,
    overrideValue: Double)
  {
    /** Every vector has one entry per degree of freedom. */
    predicate Sized(dof: nat) {
      |selection| == dof && Current().Sized(dof) &&
      |maxPosition| == dof && |minPosition| == dof && |maxVelocity| == dof &&
      |maxAcceleration| == dof && |maxJerk| == dof &&
      |targetPosition| == dof && |targetVelocity| == dof
    }

    /** The current state the generator starts from. */
    function Current(): MotionState {
      MotionState(currentPosition, currentVelocity, currentAcceleration)
    }

    /** The same record with its current state overwritten. */
    function WithCurrent(m: MotionState): (p: InputParameters)
      ensures p.Current() == m
      ensures p.(currentPosition := currentPosition, currentVelocity := currentVelocity,
                 currentAcceleration := currentAcceleration) == this
    {
      this.(currentPosition := m.position, currentVelocity := m.velocity, currentAcceleration := m.acceleration)
    }
  }

  /** Output parameters of the trajectory generator (`ReflexxesOutputParameters`). */
  datatype OutputParameters = OutputParameters(
    newPosition: seq<Double>,
    newVelocity: seq<Double>,
    newAcceleration: seq<Double>,
    executionTimes: seq<Double>,
    positionValuesAtTargetVelocity: seq<Double>,
    aNewCalculationWasPerformed: bool,
    trajectoryIsPhaseSynchronized: bool,
    overrideFilterIsActive: bool,
    dofWithGreatestExecutionTime: int,
    synchronizationTime: Double,
    currentOverrideValue: Double,
    trajectoryExceedsTargetPosition: bool)
  {
    /** Every vector has one entry per degree of freedom. */
    predicate Sized(dof: nat) {
      New().Sized(dof) && |executionTimes| == dof && |positionValuesAtTargetVelocity| == dof
    }

    /** The state the generator computed for the next cycle. */
    function New(): MotionState {
      MotionState(newPosition, newVelocity, newAcceleration)
    }
  }

  /** Every entry is NaN. */
  predicate AllNaN(v: seq<Double>) {
    forall i :: 0 <= i < |v| ==> v[i] == NaN
  }

  /** A vector of `dof` NaNs. */
  function NaNs(dof: nat): (v: seq<Double>)
    ensures |v| == dof && AllNaN(v)
  {
    seq(dof, _ => NaN)
  }

  /** `ReflexxesInputParameters(dof)`: every vector sized to `dof` and filled
      with NaN; `base::NaN<u_int8_t>()` is 0, so no joint is selected. */
  function InputParametersFor(dof: nat): (p: InputParameters)
    ensures p.Sized(dof)
    ensures AllNaN(p.currentPosition) && AllNaN(p.currentVelocity) && AllNaN(p.currentAcceleration)
    ensures AllNaN(p.maxPosition) && AllNaN(p.minPosition) && AllNaN(p.maxVelocity)
    ensures AllNaN(p.maxAcceleration) && AllNaN(p.maxJerk)
    ensures AllNaN(p.targetPosition) && AllNaN(p.targetVelocity)
    ensures forall i :: 0 <= i < dof ==> !p.selection[i]
    ensures p.minSynchronizationTime == NaN && p.overrideValue == NaN
  {
    InputParameters(seq(dof, _ => false), NaNs(dof), NaNs(dof), NaNs(dof), NaNs(dof), NaNs(dof),
                    NaNs(dof), NaNs(dof), NaNs(dof), NaNs(dof), NaNs(dof), NaN, NaN)
  }

  /** `ReflexxesOutputParameters(dof)` as written: `new_position_vector` is
      filled with `base::NaN<int>()`, which is 0 for `int`, so its entries are
      0.0 rather than NaN. `dof_with_greatest_execution_time` is an `int` and
      also receives 0. */
  function OutputParametersAsWritten(dof: nat): (p: OutputParameters)
    ensures p.Sized(dof)
    ensures forall i :: 0 <= i < dof ==> p.newPosition[i] == Num(0.0)
    ensures AllNaN(p.newVelocity) && AllNaN(p.newAcceleration)
    ensures AllNaN(p.executionTimes) && AllNaN(p.positionValuesAtTargetVelocity)
    ensures !p.aNewCalculationWasPerformed && !p.trajectoryIsPhaseSynchronized
    ensures !p.overrideFilterIsActive && !p.trajectoryExceedsTargetPosition
    ensures p.dofWithGreatestExecutionTime == 0
    ensures p.synchronizationTime == NaN && p.currentOverrideValue == NaN
  {
    OutputParameters(seq(dof, _ => Num(0.0)), NaNs(dof), NaNs(dof), NaNs(dof), NaNs(dof),
                     false, false, false, 0, NaN, NaN, false)
  }

  /** The output record as evidently intended: every vector sized to `dof` and
      filled with NaN, all flags false. */
  function OutputParametersFor(dof: nat): (p: OutputParameters)
    ensures p.Sized(dof)
    ensures AllNaN(p.newPosition) && AllNaN(p.newVelocity) && AllNaN(p.newAcceleration)
    ensures AllNaN(p.executionTimes) && AllNaN(p.positionValuesAtTargetVelocity)
    ensures !p.aNewCalculationWasPerformed && !p.trajectoryIsPhaseSynchronized
    ensures !p.overrideFilterIsActive && !p.trajectoryExceedsTargetPosition
    ensures p.dofWithGreatestExecutionTime == 0
    ensures p.synchronizationTime == NaN && p.currentOverrideValue == NaN
  {
    OutputParameters(NaNs(dof), NaNs(dof), NaNs(dof), NaNs(dof), NaNs(dof),
                     false, false, false, 0, NaN, NaN, false)
  }

  /** With at least one joint, the record as written starts with a known
      position of 0.0 where every other vector starts unknown, unlike the
      intended record. */
  lemma NewPositionFillDiffers(dof: nat)
    requires dof >= 1
    ensures OutputParametersAsWritten(dof).newPosition[0].IsSet()
    ensures !OutputParametersAsWritten(dof).newVelocity[0].IsSet()
    ensures !OutputParametersFor(dof).newPosition[0].IsSet()
    ensures OutputParametersAsWritten(dof) != OutputParametersFor(dof)
  {
  }

  /** The record as written and the intended one differ in the fill of the
      new-position vector and nowhere else. */
  lemma AsWrittenDiffersOnlyInNewPosition(dof: nat)
    ensures OutputParametersAsWritten(dof) ==
      OutputParametersFor(dof).(newPosition := OutputParametersAsWritten(dof).newPosition)
  {
  }
}
