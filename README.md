# Joint-space trajectory generation around Reflexxes: a Dafny model

This project models the sequential logic of a periodic control component. The component turns a joint-space target into a motion sample that respects each joint's limits, once per control cycle. The jerk-limited trajectory mathematics comes from the Reflexxes library and is treated as an opaque step function. What is modelled is the logic around that step:

- the per-joint motion constraints: their "unset" fields, their validation and their defaulting;
- the structural check of a constrained joint command;
- the Reflexxes result codes;
- the parameter records sized to the number of joints;
- the position task's cycle: arbitrating between two target ports, seeding the current state from the measurement at startup only, feeding the step's output back as the next current state, an optional crop of the target at the position limits, and writing the command.

Files:

- `values.dfy` (`Values`): C++ doubles as real-or-NaN, NaN-aware comparisons, and result types for code that throws.
- `types.dfy` (`TrajectoryTypes`): everything in `trajectory_generationTypes.hpp`.
- `conversions.dfy` (`Conversions`): the collaborators that are not part of this model, as function values, and the positional crop.
- `position_task.dfy` (`PositionTask`): `tasks/RMLPositionTask.cpp`. Each step of a cycle is a function from the task's state to its next state. The class `RMLPositionTask` keeps that state in fields, and each method is proved to perform its step. Lemmas over single cycles and over runs of cycles state which state is authoritative.

Modelling choices:

- `base::unset` and `base::NaN` are the NaN of `Double`. `hasMaxPosition()` and its siblings test for "not NaN". Comparisons such as `max.position <= min.position` are false when either side is NaN, as in C++.
- The Type IV build switch (`USING_REFLEXXES_TYPE_IV`) is a boolean parameter, `typeIV`.
- `MotionConstraint` appears twice. `Constraint` is its value, which is what vectors of constraints hold. The class `MotionConstraint` is a struct variable whose fields `applyDefaultIfUnset` writes one after another.
- The Reflexxes input record, output record and flags belong only to the task. They are therefore value fields of the task object, and each `std::vector` or RML vector is a `seq` that is assigned whole, as the source assigns or converts whole vectors. `Valid()` keeps every vector at one entry per configured joint.
- A port read is a `Read` value: a `FlowStatus` and a payload. As with `readNewest`, the variable read into is overwritten unless the status is `NoData`. Port writes are appended to `currentSampleOut` and `commandOut`. The clock is a parameter.
- The trajectory step and the conversion helpers of `Conversions.hpp` are the fields of `Collaborators`. The helpers that write into the input record receive the whole record and return it. The contracts and lemmas name the assumptions they need about the helpers as predicates:
  - the helpers keep vector sizes (`FitDof`);
  - the target conversion leaves the current state alone (`TargetKeepsCurrent`);
  - writing a measurement changes only the current state (`StateWritesOnlyCurrent`), and that state depends on the measurement and the names only (`StateFromMeasurementOnly`);
  - the step never answers with the component's own startup sentinel (`NeverUninitialized`).
- The cycle order (target, current state, trajectory step with its code stored in `resultValue`, command) is an assumption. The base class that sequences the cycle is not part of this model. A throw from `updateTarget` ends the cycle, and a run of cycles stops there.
- Both target ports are read into the same `ConstrainedJointsCmd` member. The model takes the plain `target` port to carry a `base::commands::Joints`, so that reading it overwrites only the joint part. The port types are declared outside the modelled files, so this is an assumption: the two reads into one variable would compile whatever the plain port's type is. Under it, the inline constraints of an earlier constrained target stay, and they are checked against the new joint count (`PlainTargetKeepsInlineConstraints`, `StaleInlineConstraintsRejectPlainTarget`).

Behaviour of the code worth noting:

- `updateTarget` reports a conflict when both target ports have any data, old data included.
- `writeCommand` writes only the command port. It refreshes `current_sample` but does not write it; that sample goes out in the next cycle's `updateCurrentState`, when there is state data.
- The target is cropped only in the cycle where a new target is converted; later trajectory steps reuse the cropped record.
- The result enumeration has ten specific error codes besides `RML_ERROR`, and the component's own `RML_NOT_INITIALIZED` sentinel.

## Model

| member | source | states |
|---|---|---|
| `TrajectoryTypes.UnsetConstraint` | trajectory_generationTypes.hpp:30-42 | a default-constructed constraint has no field set: every `has*` predicate is false |
| `TrajectoryTypes.MotionConstraint.constructor` | trajectory_generationTypes.hpp:30-36 | the constructor leaves the struct equal to the all-unset constraint |
| `TrajectoryTypes.Constraint.Validate` | trajectory_generationTypes.hpp:44-65 | fails iff, in a Type IV build, a position bound is unset or max ≤ min; or speed, acceleration or jerk is unset; or one of them is ≤ 0 |
| `TrajectoryTypes.ValidateReportsFirstViolation` | trajectory_generationTypes.hpp:44-65 | passes iff no check fires; on failure, the reported error is a check that fires and every earlier check does not |
| `TrajectoryTypes.PositionsIgnoredWithoutTypeIV` | trajectory_generationTypes.hpp:45-52 | without Type IV, replacing the position fields by anything (unset or inverted) does not change the verdict, and no position error is reported |
| `TrajectoryTypes.MotionConstraint.ApplyDefaultIfUnset` | trajectory_generationTypes.hpp:66-77 | the struct's new value is its old value with each unset field taken from the default (the default's value as it was before the call) |
| `TrajectoryTypes.DefaultsFillOnlyUnsetFields` | trajectory_generationTypes.hpp:66-77 | set fields are unchanged; each unset field takes the default's value even when that is unset; a field ends up set iff it or the default's was set |
| `TrajectoryTypes.DefaultsIdempotent` | trajectory_generationTypes.hpp:66-77 | applying the same default twice equals applying it once |
| `TrajectoryTypes.CompleteDefaultsComplete` | trajectory_generationTypes.hpp:38-77 | with a default whose five fields are set, all five `has*` predicates hold afterwards |
| `TrajectoryTypes.DefaultsIdentities` | trajectory_generationTypes.hpp:30-77 | defaulting an all-unset constraint gives the default; a constraint with every field set ignores the default |
| `TrajectoryTypes.ConstrainedJointsCmd.Validate` | trajectory_generationTypes.hpp:87-94 | fails iff the name count differs from the element count, or the inline constraints are non-empty with a count different from the element count; the name check is reported first |
| `TrajectoryTypes.ResultValue.Code` | trajectory_generationTypes.hpp:98-114 | exactly the error codes and the not-initialized sentinel are negative; working, final state reached and no error are 0, 1 and 2 |
| `TrajectoryTypes.ResultFromCode` | trajectory_generationTypes.hpp:98-114 | an integer maps back only to an enumerator with that value |
| `TrajectoryTypes.CodeRoundTrip` | trajectory_generationTypes.hpp:98-114 | every enumerator is recovered from its integer value |
| `TrajectoryTypes.CodesDistinct` | trajectory_generationTypes.hpp:98-114 | the integer values are pairwise distinct |
| `TrajectoryTypes.InputParametersFor` | trajectory_generationTypes.hpp:119-133 | every input vector has `dof` entries, all NaN; no joint is selected; both scalars are NaN |
| `TrajectoryTypes.OutputParametersAsWritten` | trajectory_generationTypes.hpp:152-165 | as written, every output vector has `dof` entries; the new-position vector is filled with 0.0, the other four vectors with NaN; all flags are false; the greatest-execution-time index is 0; both double scalars are NaN |
| `TrajectoryTypes.OutputParametersFor` | trajectory_generationTypes.hpp:152-165 | as intended, every output vector has `dof` entries, all NaN; all flags are false; both double scalars are NaN |
| `TrajectoryTypes.NewPositionFillDiffers` | trajectory_generationTypes.hpp:153-156 | for one joint or more, the record as written starts with a set new position where the velocity vector and the intended record start unset |
| `TrajectoryTypes.AsWrittenDiffersOnlyInNewPosition` | trajectory_generationTypes.hpp:152-165 | the record as written equals the intended record with only its new-position vector replaced |
| `Conversions.Crop` | tasks/RMLPositionTask.cpp:55-59 | a cropped target lies within set, ordered limits; a target already inside is unchanged; a NaN target stays NaN; the result is the target or one of the limits |
| `Conversions.CropTargetAtPositionLimits` | tasks/RMLPositionTask.cpp:56-58 | only the target positions change, each cropped at its own joint's limits |
| `Conversions.CroppedWithinLimits` | tasks/RMLPositionTask.cpp:56-58 | after the crop, a joint with set, ordered limits has its target within them |
| `Conversions.CropIdempotent` | tasks/RMLPositionTask.cpp:56-58 | cropping twice equals cropping once |
| `Conversions.CropExample` | tasks/RMLPositionTask.cpp:56-58 | limits [-1, 1]: a target of 2 becomes 1, 0.5 stays 0.5, and -3 becomes -1 |
| `PositionTask.TargetStep` | tasks/RMLPositionTask.cpp:39-63 | fails with a conflict iff both ports have any data; the held target is the constrained sample when that port has data, the old target with the plain joints when only the plain port has data, and unchanged otherwise; with exactly one port on NewData, a held target that fails `validate` is rejected with that error and one that passes returns NewData; otherwise returns the status of the port with data, or NoData; changes the input record only on NewData; changes nothing else but the held target |
| `PositionTask.TargetCroppedOnlyWhenActivelyPrevented` | tasks/RMLPositionTask.cpp:52-60 | a new target reaches the input record as converted, and cropped iff the build is Type IV and the behaviour is ActivelyPrevent |
| `PositionTask.PlainTargetKeepsInlineConstraints` | tasks/RMLPositionTask.cpp:40-41 | a plain target read with no constrained data replaces the joint part of the held target and keeps its inline constraints |
| `PositionTask.StaleInlineConstraintsRejectPlainTarget` | tasks/RMLPositionTask.cpp:40-53 | a held single inline constraint makes a well-formed two-joint plain target fail validation |
| `PositionTask.StateStep` | tasks/RMLPositionTask.cpp:25-37 | returns the read status; the measurement is written into the input record iff the status is NewData and the result is the startup sentinel, and the record is untouched otherwise; if the helper writes only the current state, nothing else in the input changes; on seeding, the written sample is made from the new record with the configured names, otherwise the held sample is re-stamped; a sample stamped with the given time is written iff the status is not NoData |
| `PositionTask.OtgStep` | tasks/RMLPositionTask.cpp:65-80 | whatever the result, the input's current position, velocity and acceleration equal the output's new ones; nothing else in the input changes; the step's code is returned unchanged |
| `PositionTask.CommandStep` | tasks/RMLPositionTask.cpp:82-88 | the command is the one made from the output record, with the configured names and the same timestamp as the current sample, and it is written; the sample comes from the fed-back input record |
| `PositionTask.CycleStep` | tasks/RMLPositionTask.cpp:25-88 | in the assumed order: after a cycle that does not throw, the input's current state equals the step's output, the stored result is the step's code, and exactly one command is written, the one made from that output with the configured names and the command time; a conflict is the only fault reported as a conflict, and a throw changes nothing but the held target |
| `PositionTask.EngineStartsFromAuthoritativeState` | tasks/RMLPositionTask.cpp:25-80 | the trajectory step starts from the state written from the measurement on NewData while the result is the startup sentinel, and from the carried-over (fed-back) current state otherwise |
| `PositionTask.ConflictStopsCycle` | tasks/RMLPositionTask.cpp:43-44 | data on both target ports throws before any step: records, result and port output are unchanged |
| `PositionTask.MeasurementIgnoredAfterStartup` | tasks/RMLPositionTask.cpp:26-31 | after startup, two cycles that read different measurements give the same result, records and commands |
| `PositionTask.RunKeepsFeedback` | tasks/RMLPositionTask.cpp:69-79 | once the result is not the sentinel and the current state equals the last output, this stays so through any run of cycles, including ones that throw |
| `PositionTask.FirstCycleFeedsBack` | tasks/RMLPositionTask.cpp:69-79 | the first cycle that does not throw leaves the result off the sentinel and the current state equal to the output |
| `PositionTask.RunIgnoresMeasurementsAfterStartup` | tasks/RMLPositionTask.cpp:25-80 | after startup, the commands of a whole run do not depend on the measurements it reads |
| `PositionTask.CycleKeepsSized` | tasks/RMLPositionTask.cpp:9-12 | a cycle keeps both records at one entry per configured joint |
| `PositionTask.RunKeepsSized` | tasks/RMLPositionTask.cpp:9-12 | a run keeps both records at one entry per configured joint |
| `PositionTask.RMLPositionTask.Configure` | tasks/RMLPositionTask.cpp:9-17 | both records are allocated with one entry per configured motion constraint; the result is the startup sentinel; nothing has been written |
| `PositionTask.RMLPositionTask.UpdateTarget` | tasks/RMLPositionTask.cpp:39-63 | performs `TargetStep` on the task's fields and keeps the records sized |
| `PositionTask.RMLPositionTask.UpdateCurrentState` | tasks/RMLPositionTask.cpp:25-37 | performs `StateStep` on the task's fields and keeps the records sized |
| `PositionTask.RMLPositionTask.PerformOtg` | tasks/RMLPositionTask.cpp:65-80 | performs `OtgStep`: the output record is overwritten by the step and copied back into the input's current vectors |
| `PositionTask.RMLPositionTask.WriteCommand` | tasks/RMLPositionTask.cpp:82-88 | performs `CommandStep` on the task's fields |
| `PositionTask.RMLPositionTask.Cycle` | tasks/RMLPositionTask.cpp:25-88 | performs `CycleStep` on the task's fields in the assumed order and keeps the records sized |

## Findings

| source | as written | input that shows it | evidently intended | confidence | as-written member | corrected member |
|---|---|---|---|---|---|---|
| trajectory_generationTypes.hpp:153 | `new_position_vector` is filled with `base::NaN<int>()`, which is `std::numeric_limits<int>::quiet_NaN()`, that is 0, so the entries are 0.0 | `dof = 1`: the new position starts as 0.0, a set value, while the other vectors start at NaN | fill with `base::NaN<double>()` like every other vector | medium; not executed; relies on `base::NaN` returning `quiet_NaN()`, whose definition is not part of this model | `TrajectoryTypes.OutputParametersAsWritten`, `TrajectoryTypes.NewPositionFillDiffers` | `TrajectoryTypes.OutputParametersFor` |

## Left out

- `scripts/RMLCartesianPositionTask.rb` is an interactive Ruby driver with prompts, port I/O, polling and printing. It holds no logic to verify.
- The port plumbing (`readNewest`, `write`) is modelled only as `Read` values and appended output sequences.
- `rml_api->RMLPosition` is an opaque function of the input record and the positional-limits behaviour. The internal state Reflexxes keeps between calls is not modelled. The step returns a `ResultValue`, so the `int` cast in `performOTG` is the identity (`CodeRoundTrip`).
- The helpers of `Conversions.hpp` (`target2RmlTypes`, `jointState2RmlTypes`, `rmlTypes2JointState`, `rmlTypes2Command`) are opaque functions. Exceptions they might throw, for example on a joint name they cannot match, are not modelled.
- `jointState2RmlTypes` loses its flags argument. That it writes only the current vectors, from the measurement and the names alone, is an assumption (`StateWritesOnlyCurrent`, `StateFromMeasurementOnly`), because its body is not part of this model.
- `cropTargetAtPositionLimits` is modelled as a per-joint clamp, as the comment at tasks/RMLPositionTask.cpp:56 describes.
- `updateMotionConstraints`, `convertRMLInputParams` and `convertRMLOutputParams` are one-line wrappers over helpers that are not part of this model.
- `printParams` and `Echo` are debug output only.
- `base::Time::now()` is a time value passed in, one for each point where the task asks for the time.
- Floating point is modelled as real numbers plus NaN. Infinities and rounding are not modelled.
- For `u_int8_t`, `base::NaN` is 0, so the selection flags are booleans and start false.
- The default constructors `ReflexxesInputParameters()` and `ReflexxesOutputParameters()` leave vectors empty and scalars uninitialised. Only the `dof` constructors are modelled.
- The base class's `updateHook` and `configureHook` are not part of this model. The cycle order, the assignment of `rml_result_value` from `performOTG` and the stop after a throw are assumptions. So are the initial value `RML_NOT_INITIALIZED` and the copy of the `motion_constraints` property into the member.
- The `new_input_parameters` and `new_output_parameters` pointers passed to `updateCurrentState`, `updateTarget` and `performOTG`, and the members `*rml_input_parameters` and `*rml_output_parameters` that `writeCommand` uses, are assumed to be the same two records. The model keeps one input record and one output record.
- The plain `target` port is assumed to carry `base::commands::Joints`; its declaration is not part of this model. `PositionTask.PlainTargetKeepsInlineConstraints` and `PositionTask.StaleInlineConstraintsRejectPlainTarget` rest on this.
- `RMLPositionFlags` is reduced to its positional-limits behaviour.
- `base::JointState` is reduced to position, speed and acceleration; effort and raw are not modelled.
- Name lookup in named vectors is not modelled.
- PositionTask.RMLPositionTask.Configure: the constructors `RMLPositionInputParameters(n)` and `RMLPositionOutputParameters(n)` are not part of this model. The initial contents are chosen as NaN, the fill of the component's mirror structs; the library's own initial contents are not modelled.
