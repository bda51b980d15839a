/** The per-cycle logic of the joint-space position task (tasks/RMLPositionTask.cpp).
    Each step of a cycle is first given as a function from the task's state
    before the step to its state after it (and the step's return value); the
    class `RMLPositionTask` at the end holds that state in fields and its
    methods are proved to perform exactly these steps. */
module PositionTask {
  import opened Values
  import opened TrajectoryTypes
  import opened Conversions

  /** `RTT::FlowStatus` of a read from an input port. */
  datatype FlowStatus = NoData | OldData | NewData

  /** The outcome of `port.readNewest(sample)`: a status and, unless the status
      is NoData, the sample that was read. */
  datatype Read<T> = Read(status: FlowStatus, sample: T)

  /** The variable passed to `readNewest` after the call: overwritten unless
      there was no data at all. */
  function ReadNewest<T>(r: Read<T>, held: T): T {
    if r.status == NoData then held else r.sample
  }

  /** What the task is configured with: the build variant (Type IV or not),
      the motion constraints and the positional-limits behaviour of the flags. */
  datatype Config = Config(typeIV: bool, constraints: MotionConstraints, behavior: PositionalLimitsBehavior) {
    /** The number of degrees of freedom. */
    function Dof(): nat { constraints.Size() }

    /** Targets are cropped at the position limits. */
    predicate CropsTargets() {
      typeIV && behavior == PositionalLimitsActivelyPrevent
    }
  }

  /** The member state of the task that changes from cycle to cycle, and what
      it has written to its two output ports so far. */
  datatype TaskState = TaskState(
    input: InputParameters,       // *rml_input_parameters
    output: OutputParameters,     // *rml_output_parameters
    resultValue: ResultValue,     // rml_result_value
    jointState: Joints,           // joint_state
    target: ConstrainedJointsCmd, // target
    currentSample: Joints,        // current_sample
    command: Joints,              // command
    currentSampleOut: seq<Joints>, // samples written on the current_sample port
    commandOut: seq<Joints>)       // commands written on the command port
  {
    predicate Sized(dof: nat) {
      input.Sized(dof) && output.Sized(dof)
    }
  }

  /** The exceptions a cycle can throw. */
  datatype TaskError = ConflictingTargets | InvalidTarget(error: CommandError)

  /** The state after a step and what the step returned. */
  datatype Step<T> = Step(state: TaskState, value: T)

  /** Everything a cycle reads from outside: the three input ports and the
      clock at the two points where the task asks for the time. */
  datatype CycleInputs = CycleInputs(
    plainTarget: Read<Joints>,
    constrainedTarget: Read<ConstrainedJointsCmd>,
    measured: Read<Joints>,
    stateTime: int,
    commandTime: int)

  // ---------------------------------------------------------------------------
  // The steps of a cycle
  // ---------------------------------------------------------------------------

  /** `updateTarget`. Both target ports are read into the same
      `ConstrainedJointsCmd` variable; the plain port carries only the joint
      part, so its read keeps the inline constraints held before. Data on both
      ports throws. On new data the target is checked, converted into the input
      record and, when targets are cropped, cropped at the position limits. */
  function TargetStep(cfg: Config, s: TaskState, plain: Read<Joints>,
                      constrained: Read<ConstrainedJointsCmd>, col: Collaborators)
    : (r: Step<Result<FlowStatus, TaskError>>)
    ensures r.state == s.(input := r.state.input, target := r.state.target)
    ensures r.value == Err(ConflictingTargets) <==> plain.status != NoData && constrained.status != NoData
    ensures r.value == Err(ConflictingTargets) ==> r.state.input == s.input
    ensures plain.status == NoData ==>
      r.value == Ok(constrained.status) || (constrained.status == NewData && r.value.Err?)
    ensures constrained.status == NoData ==>
      r.value == Ok(plain.status) || (plain.status == NewData && r.value.Err?)
    ensures r.value.Err? && r.value != Err(ConflictingTargets) ==>
      r.state.target.Validate().Fail? && r.value == Err(InvalidTarget(r.state.target.Validate().error))
    ensures r.state.input != s.input ==> r.value == Ok(NewData)
    ensures constrained.status != NoData ==> r.state.target == constrained.sample
    ensures constrained.status == NoData && plain.status != NoData ==>
      r.state.target == s.target.(joints := plain.sample)
    ensures constrained.status == NoData && plain.status == NoData ==> r.state.target == s.target
    ensures (plain.status == NoData) != (constrained.status == NoData) &&
            (plain.status == NewData || constrained.status == NewData) ==>
      (r.state.target.Validate().Fail? ==> r.value == Err(InvalidTarget(r.state.target.Validate().error))) &&
      (r.state.target.Validate().Pass? ==> r.value == Ok(NewData))
  {
    var held := ReadNewest(Read(constrained.status, constrained.sample),
                           ReadNewest(Read(plain.status, s.target.(joints := plain.sample)), s.target));
    var s1 := s.(target := held);
    if plain.status != NoData && constrained.status != NoData then
      Step(s1, Err(ConflictingTargets))
    else
      var fs := if plain.status != NoData then plain.status
                else if constrained.status != NoData then constrained.status
                else NoData;
      if fs != NewData then Step(s1, Ok(fs))
      else match held.Validate()
        case Fail(e) => Step(s1, Err(InvalidTarget(e)))
        case Pass =>
          var converted := col.targetToRml(held, cfg.constraints, s.input);
          var input := if cfg.CropsTargets() then CropTargetAtPositionLimits(converted) else converted;
          Step(s1.(input := input), Ok(fs))
  }

  /** `updateCurrentState`. The measurement is written into the input record
      only on new data while no trajectory step has been taken yet (the result
      is still the startup sentinel), and the current sample is then made from
      that record; whenever there is any data, the current sample is written
      out with a fresh timestamp. */
  function StateStep(cfg: Config, s: TaskState, measured: Read<Joints>, now: int, col: Collaborators)
    : (r: Step<FlowStatus>)
    ensures r.value == measured.status
    ensures r.state.input ==
      if measured.status == NewData && s.resultValue == RmlNotInitialized
      then col.jointStateToRml(measured.sample, cfg.constraints.names, s.input)
      else s.input
    ensures col.StateWritesOnlyCurrent() ==> r.state.input == s.input.WithCurrent(r.state.input.Current())
    ensures r.state == s.(input := r.state.input, jointState := r.state.jointState,
                          currentSample := r.state.currentSample, currentSampleOut := r.state.currentSampleOut)
    ensures r.state.jointState == ReadNewest(measured, s.jointState)
    ensures r.state.currentSampleOut ==
      s.currentSampleOut + if measured.status != NoData then [r.state.currentSample] else []
    ensures measured.status != NoData ==> r.state.currentSample.time == now
    ensures measured.status == NoData ==> r.state.currentSample == s.currentSample
    ensures measured.status == NewData && s.resultValue == RmlNotInitialized ==>
      r.state.currentSample ==
        col.rmlToJointState(r.state.input, s.currentSample.(names := cfg.constraints.names)).(time := now)
    ensures measured.status != NoData && !(measured.status == NewData && s.resultValue == RmlNotInitialized) ==>
      r.state.currentSample == s.currentSample.(time := now)
  {
    var js := ReadNewest(measured, s.jointState);
    var s1 := s.(jointState := js);
    var s2 :=
      if measured.status == NewData && s.resultValue == RmlNotInitialized then
        var input := col.jointStateToRml(js, cfg.constraints.names, s.input);
        s1.(input := input,
            currentSample := col.rmlToJointState(input, s.currentSample.(names := cfg.constraints.names)))
      else s1;
    var s3 :=
      if measured.status != NoData then
        var sample := s2.currentSample.(time := now);
        s2.(currentSample := sample, currentSampleOut := s2.currentSampleOut + [sample])
      else s2;
    Step(s3, measured.status)
  }

  /** `performOTG`. One trajectory step; whatever it returns, the new state it
      computed becomes the current state of the input record. */
  function OtgStep(cfg: Config, s: TaskState, col: Collaborators): (r: Step<ResultValue>)
    ensures r.state.input.Current() == r.state.output.New()
    ensures r.state.input == s.input.WithCurrent(r.state.output.New())
    ensures r.state.output == col.engine(s.input, cfg.behavior).output
    ensures r.value == col.engine(s.input, cfg.behavior).result
    ensures r.state == s.(input := r.state.input, output := r.state.output)
  {
    var step := col.engine(s.input, cfg.behavior);
    Step(s.(input := s.input.WithCurrent(step.output.New()), output := step.output), step.result)
  }

  /** `writeCommand`. The command comes from the output record and the current
      sample from the (fed back) input record; both get the same timestamp, the
      command gets the configured joint names and is written out. */
  function CommandStep(cfg: Config, s: TaskState, now: int, col: Collaborators): (r: TaskState)
    ensures r.command.time == now && r.currentSample.time == now
    ensures r.command == col.rmlToCommand(s.output, s.command).(time := now, names := cfg.constraints.names)
    ensures r.commandOut == s.commandOut + [r.command]
    ensures r.currentSample == col.rmlToJointState(s.input, s.currentSample).(time := now)
    ensures r == s.(command := r.command, currentSample := r.currentSample, commandOut := r.commandOut)
  {
    var command := col.rmlToCommand(s.output, s.command);
    var sample := col.rmlToJointState(s.input, s.currentSample);
    var command' := command.(time := now, names := cfg.constraints.names);
    s.(command := command', currentSample := sample.(time := now), commandOut := s.commandOut + [command'])
  }

  /** The input record the trajectory step is called with in a cycle that did
      not throw: the record after the target and state steps. */
  function EngineInput(cfg: Config, s: TaskState, inputs: CycleInputs, col: Collaborators): InputParameters {
    var t := TargetStep(cfg, s, inputs.plainTarget, inputs.constrainedTarget, col);
    StateStep(cfg, t.state, inputs.measured, inputs.stateTime, col).state.input
  }

  /** One control cycle, in the assumed order: target, current state,
      trajectory step (its code becomes the stored result), command. A throw
      from the target step ends the cycle. */
  function CycleStep(cfg: Config, s: TaskState, inputs: CycleInputs, col: Collaborators)
    : (r: Step<Result<ResultValue, TaskError>>)
    ensures r.value.Ok? ==> r.state.input.Current() == r.state.output.New()
    ensures r.value.Ok? ==> r.state.resultValue == r.value.value
    ensures r.value.Ok? ==>
      var step := col.engine(EngineInput(cfg, s, inputs, col), cfg.behavior);
      r.value.value == step.result && r.state.output == step.output
    ensures r.value.Ok? ==>
      var command := col.rmlToCommand(r.state.output, s.command);
      r.state.commandOut == s.commandOut + [command.(time := inputs.commandTime, names := cfg.constraints.names)]
    ensures r.value.Err? ==> r.state == s.(target := r.state.target)
    ensures r.value == Err(ConflictingTargets) <==>
      inputs.plainTarget.status != NoData && inputs.constrainedTarget.status != NoData
  {
    var t := TargetStep(cfg, s, inputs.plainTarget, inputs.constrainedTarget, col);
    if t.value.Err? then Step(t.state, Err(t.value.error))
    else
      var c := StateStep(cfg, t.state, inputs.measured, inputs.stateTime, col);
      var o := OtgStep(cfg, c.state, col);
      var w := CommandStep(cfg, o.state.(resultValue := o.value), inputs.commandTime, col);
      Step(w, Ok(o.value))
  }

  /** A run of cycles; a throw stops the task, so no later cycle runs. */
  function Run(cfg: Config, s: TaskState, trace: seq<CycleInputs>, col: Collaborators): TaskState
    decreases |trace|
  {
    if trace == [] then s
    else
      var c := CycleStep(cfg, s, trace[0], col);
      if c.value.Err? then c.state else Run(cfg, c.state, trace[1..], col)
  }

  // ---------------------------------------------------------------------------
  // Properties of a cycle
  // ---------------------------------------------------------------------------

  /** A new target reaches the generator as converted, except that it is
      cropped at the position limits exactly under ActivelyPrevent in a Type IV
      build. */
  lemma TargetCroppedOnlyWhenActivelyPrevented(cfg: Config, s: TaskState, plain: Read<Joints>,
                                               constrained: Read<ConstrainedJointsCmd>, col: Collaborators)
    requires TargetStep(cfg, s, plain, constrained, col).value == Ok(NewData)
    ensures var r := TargetStep(cfg, s, plain, constrained, col);
      var converted := col.targetToRml(r.state.target, cfg.constraints, s.input);
      (!cfg.CropsTargets() ==> r.state.input == converted) &&
      (cfg.CropsTargets() ==> r.state.input == CropTargetAtPositionLimits(converted))
  {
  }

  /** Reading a plain target after a constrained one keeps the inline
      constraints of the constrained one, and they are validated against the
      new joint count. */
  lemma PlainTargetKeepsInlineConstraints(cfg: Config, s: TaskState, plain: Read<Joints>,
                                          constrained: Read<ConstrainedJointsCmd>, col: Collaborators)
    requires plain.status != NoData && constrained.status == NoData
    ensures var r := TargetStep(cfg, s, plain, constrained, col);
      r.state.target == ConstrainedJointsCmd(plain.sample, s.target.motionConstraints)
  {
  }

  /** Example: one inline constraint held from an earlier constrained target
      makes a well-formed plain target for two joints fail validation. */
  lemma StaleInlineConstraintsRejectPlainTarget(cfg: Config, s: TaskState, col: Collaborators, j: Joint)
    requires |s.target.motionConstraints| == 1
    ensures var plain := Read(NewData, Joints(0, ["a", "b"], [j, j]));
      var constrained := Read(NoData, s.target);
      TargetStep(cfg, s, plain, constrained, col).value == Err(InvalidTarget(ConstraintCountMismatch))
  {
  }

  /** Which state the trajectory step starts from: the measurement on new data while
      the result is still the startup sentinel, and the current state carried
      in the input record (the previous step's output) otherwise. */
  lemma EngineStartsFromAuthoritativeState(cfg: Config, s: TaskState, inputs: CycleInputs, col: Collaborators)
    requires col.TargetKeepsCurrent() && col.StateFromMeasurementOnly()
    ensures EngineInput(cfg, s, inputs, col).Current() ==
      if inputs.measured.status == NewData && s.resultValue == RmlNotInitialized
      then col.jointStateToRml(inputs.measured.sample, cfg.constraints.names, s.input).Current()
      else s.input.Current()
  {
  }

  /** Data on both target ports stops the cycle before any trajectory step, so
      neither records nor result nor port output change. */
  lemma ConflictStopsCycle(cfg: Config, s: TaskState, inputs: CycleInputs, col: Collaborators)
    requires inputs.plainTarget.status != NoData && inputs.constrainedTarget.status != NoData
    ensures var r := CycleStep(cfg, s, inputs, col);
      r.value == Err(ConflictingTargets) &&
      r.state.input == s.input && r.state.output == s.output && r.state.resultValue == s.resultValue &&
      r.state.commandOut == s.commandOut && r.state.currentSampleOut == s.currentSampleOut
  {
  }

  /** What two states have in common when they differ only in what was
      measured: everything the trajectory and the commands depend on. */
  predicate SameTrajectory(a: TaskState, b: TaskState) {
    a.input == b.input && a.output == b.output && a.resultValue == b.resultValue &&
    a.target == b.target && a.command == b.command && a.commandOut == b.commandOut
  }

  /** After startup a measurement has no influence on the trajectory: two
      cycles that read different measurements compute the same result,
      records and command. */
  lemma MeasurementIgnoredAfterStartup(cfg: Config, a: TaskState, b: TaskState, inputs: CycleInputs,
                                       measured: Read<Joints>, col: Collaborators)
    requires SameTrajectory(a, b) && a.resultValue != RmlNotInitialized
    ensures var ra := CycleStep(cfg, a, inputs, col);
      var rb := CycleStep(cfg, b, inputs.(measured := measured), col);
      ra.value == rb.value && SameTrajectory(ra.state, rb.state)
  {
  }

  // ---------------------------------------------------------------------------
  // Properties of runs of cycles
  // ---------------------------------------------------------------------------

  /** The generator has been stepped and its last output is the current state. */
  predicate FedBack(s: TaskState) {
    s.resultValue != RmlNotInitialized && s.input.Current() == s.output.New()
  }

  /** Once fed back, a task stays fed back through any run of cycles, including
      cycles that throw: the startup sentinel never comes back. */
  lemma {:induction false} RunKeepsFeedback(cfg: Config, s: TaskState, trace: seq<CycleInputs>, col: Collaborators)
    requires col.NeverUninitialized()
    requires FedBack(s)
    ensures FedBack(Run(cfg, s, trace, col))
    decreases |trace|
  {
    if trace != [] {
      var c := CycleStep(cfg, s, trace[0], col);
      if c.value.Ok? {
        assert c.state.resultValue == col.engine(EngineInput(cfg, s, trace[0], col), cfg.behavior).result;
        RunKeepsFeedback(cfg, c.state, trace[1..], col);
      }
    }
  }

  /** The first successful cycle leaves the task fed back. */
  lemma FirstCycleFeedsBack(cfg: Config, s: TaskState, inputs: CycleInputs, col: Collaborators)
    requires col.NeverUninitialized()
    requires CycleStep(cfg, s, inputs, col).value.Ok?
    ensures FedBack(CycleStep(cfg, s, inputs, col).state)
  {
  }

  /** The measurements of a trace replaced by others. */
  function WithMeasurements(trace: seq<CycleInputs>, measured: seq<Read<Joints>>): (t: seq<CycleInputs>)
    requires |measured| == |trace|
    ensures |t| == |trace|
    ensures forall i :: 0 <= i < |trace| ==> t[i] == trace[i].(measured := measured[i])
  {
    seq(|trace|, i requires 0 <= i < |trace| => trace[i].(measured := measured[i]))
  }

  /** After startup, the commands a run writes do not depend on the
      measurements it reads. */
  lemma {:induction false} RunIgnoresMeasurementsAfterStartup(
    cfg: Config, a: TaskState, b: TaskState, trace: seq<CycleInputs>, measured: seq<Read<Joints>>,
    col: Collaborators)
    requires col.NeverUninitialized()
    requires SameTrajectory(a, b) && a.resultValue != RmlNotInitialized
    requires |measured| == |trace|
    ensures SameTrajectory(Run(cfg, a, trace, col), Run(cfg, b, WithMeasurements(trace, measured), col))
    ensures Run(cfg, a, trace, col).commandOut == Run(cfg, b, WithMeasurements(trace, measured), col).commandOut
    decreases |trace|
  {
    if trace != [] {
      var other := WithMeasurements(trace, measured);
      assert other[0] == trace[0].(measured := measured[0]);
      MeasurementIgnoredAfterStartup(cfg, a, b, trace[0], measured[0], col);
      var ca := CycleStep(cfg, a, trace[0], col);
      var cb := CycleStep(cfg, b, other[0], col);
      if ca.value.Ok? {
        assert ca.state.resultValue == col.engine(EngineInput(cfg, a, trace[0], col), cfg.behavior).result;
        assert other[1..] == WithMeasurements(trace[1..], measured[1..]);
        RunIgnoresMeasurementsAfterStartup(cfg, ca.state, cb.state, trace[1..], measured[1..], col);
      }
    }
  }

  /** Every cycle keeps the records at the configured number of degrees of freedom. */
  lemma CycleKeepsSized(cfg: Config, s: TaskState, inputs: CycleInputs, col: Collaborators)
    requires col.FitDof(cfg.Dof()) && s.Sized(cfg.Dof())
    ensures CycleStep(cfg, s, inputs, col).state.Sized(cfg.Dof())
  {
  }

  /** Every run keeps the records at the configured number of degrees of freedom. */
  lemma {:induction false} RunKeepsSized(cfg: Config, s: TaskState, trace: seq<CycleInputs>, col: Collaborators)
    requires col.FitDof(cfg.Dof()) && s.Sized(cfg.Dof())
    ensures Run(cfg, s, trace, col).Sized(cfg.Dof())
    decreases |trace|
  {
    if trace != [] {
      CycleKeepsSized(cfg, s, trace[0], col);
      var c := CycleStep(cfg, s, trace[0], col);
      if c.value.Ok? {
        RunKeepsSized(cfg, c.state, trace[1..], col);
      }
    }
  }

  // ---------------------------------------------------------------------------
  // The task object
  // ---------------------------------------------------------------------------

  /** `RMLPositionTask`. The Reflexxes records and the flags belong to the task
      alone, so they are fields of it here. */
  class RMLPositionTask {
    const typeIV: bool
    const motionConstraints: MotionConstraints
    const limitsBehavior: PositionalLimitsBehavior
    var input: InputParameters
    var output: OutputParameters
    var resultValue: ResultValue
    var jointState: Joints
    var target: ConstrainedJointsCmd
    var currentSample: Joints
    var command: Joints
    var currentSampleOut: seq<Joints>
    var commandOut: seq<Joints>

    function Cfg(): Config {
      Config(typeIV, motionConstraints, limitsBehavior)
    }

    function State(): TaskState
      reads this
    {
      TaskState(input, output, resultValue, jointState, target, currentSample, command,
                currentSampleOut, commandOut)
    }

    /** The records have one entry per configured joint. */
    ghost predicate Valid()
      reads this
    {
      State().Sized(Cfg().Dof())
    }

    /** `configureHook`: the records are allocated with one entry per
        configured motion constraint; no trajectory step has been taken yet. */
    constructor Configure(typeIV: bool, constraints: MotionConstraints, behavior: PositionalLimitsBehavior)
      ensures Cfg() == Config(typeIV, constraints, behavior)
      ensures Valid()
      ensures input == InputParametersFor(constraints.Size())
      ensures output == OutputParametersFor(constraints.Size())
      ensures resultValue == RmlNotInitialized
      ensures currentSampleOut == [] && commandOut == []
    {
      this.typeIV := typeIV;
      motionConstraints := constraints;
      limitsBehavior := behavior;
      input := InputParametersFor(constraints.Size());
      output := OutputParametersFor(constraints.Size());
      resultValue := RmlNotInitialized;
      jointState := NoJoints;
      target := ConstrainedJointsCmd(NoJoints, []);
      currentSample := NoJoints;
      command := NoJoints;
      currentSampleOut := [];
      commandOut := [];
    }

    method UpdateTarget(plain: Read<Joints>, constrained: Read<ConstrainedJointsCmd>, col: Collaborators)
      returns (r: Result<FlowStatus, TaskError>)
      requires Valid() && col.FitDof(Cfg().Dof())
      modifies this
      ensures Valid()
      ensures var step := TargetStep(Cfg(), old(State()), plain, constrained, col);
        State() == step.state && r == step.value
    {
      if plain.status != NoData {
        target := target.(joints := plain.sample);
      }
      if constrained.status != NoData {
        target := constrained.sample;
      }
      if plain.status != NoData && constrained.status != NoData {
        return Err(ConflictingTargets);
      }
      var fs := NoData;
      if plain.status != NoData {
        fs := plain.status;
      } else if constrained.status != NoData {
        fs := constrained.status;
      }
      if fs == NewData {
        var valid := target.Validate();
        if valid.Fail? {
          return Err(InvalidTarget(valid.error));
        }
        input := col.targetToRml(target, motionConstraints, input);
        if typeIV && limitsBehavior == PositionalLimitsActivelyPrevent {
          input := CropTargetAtPositionLimits(input);
        }
      }
      return Ok(fs);
    }

    method UpdateCurrentState(measured: Read<Joints>, now: int, col: Collaborators) returns (fs: FlowStatus)
      requires Valid() && col.FitDof(Cfg().Dof())
      modifies this
      ensures Valid()
      ensures var step := StateStep(Cfg(), old(State()), measured, now, col);
        State() == step.state && fs == step.value
    {
      fs := measured.status;
      if fs != NoData {
        jointState := measured.sample;
      }
      if fs == NewData && resultValue == RmlNotInitialized {
        input := col.jointStateToRml(jointState, motionConstraints.names, input);
        currentSample := currentSample.(names := motionConstraints.names);
        currentSample := col.rmlToJointState(input, currentSample);
      }
      if fs != NoData {
        currentSample := currentSample.(time := now);
        currentSampleOut := currentSampleOut + [currentSample];
      }
    }

    method PerformOtg(col: Collaborators) returns (result: ResultValue)
      requires Valid() && col.FitDof(Cfg().Dof())
      modifies this
      ensures Valid()
      ensures var step := OtgStep(Cfg(), old(State()), col);
        State() == step.state && result == step.value
    {
      var step := col.engine(input, limitsBehavior);
      output := step.output;
      input := input.WithCurrent(output.New());
      result := step.result;
    }

    method WriteCommand(now: int, col: Collaborators)
      requires Valid()
      modifies this
      ensures Valid()
      ensures State() == CommandStep(Cfg(), old(State()), now, col)
    {
      command := col.rmlToCommand(output, command);
      currentSample := col.rmlToJointState(input, currentSample);
      currentSample := currentSample.(time := now);
      command := command.(time := now);
      command := command.(names := motionConstraints.names);
      commandOut := commandOut + [command];
    }

    /** One control cycle, in the assumed order of the base class. */
    method Cycle(inputs: CycleInputs, col: Collaborators) returns (r: Result<ResultValue, TaskError>)
      requires Valid() && col.FitDof(Cfg().Dof())
      modifies this
      ensures Valid()
      ensures var step := CycleStep(Cfg(), old(State()), inputs, col);
        State() == step.state && r == step.value
    {
      var fs := UpdateTarget(inputs.plainTarget, inputs.constrainedTarget, col);
      if fs.Err? {
        return Err(fs.error);
      }
      var _ := UpdateCurrentState(inputs.measured, inputs.stateTime, col);
      var code := PerformOtg(col);
      resultValue := code;
      WriteCommand(inputs.commandTime, col);
      return Ok(code);
    }
  }
}
