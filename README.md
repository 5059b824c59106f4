# Swerve drive subsystem and QuestNav telemetry bridge, in Dafny

This project models the core of a 2026 FRC robot program written in Python:

- the **drive subsystem** (`Drive`). It owns the eight TalonFX motor
  controllers of four swerve modules. It holds a one-way enabled/disabled
  fault state and offers `drive`, `stop` and `get_autonomous_command`.
  At construction it probes fixed candidate locations for a vendor-generated
  drivetrain class and for an autonomous-command builder. When it has no
  generated drivetrain, it drives the motors open loop: deadband, scaling,
  a four-way mix and clamping to [-1, 1].
- the **QuestNav bridge** (`QuestNavNtBridge`). Each `update` reads one
  sample of the headset's pose stream and republishes the raw values. It
  publishes a data age and a `connected` verdict, and converts the headset
  pose into the robot's field frame. Malformed input is reported through a
  per-key, rate-limited warning.
- the **configuration constants**: CAN identifiers, bus name, deadbands,
  output scales, the stale timeout and the payload lengths.

Modules:

| file | module | contents |
|---|---|---|
| constants.dfy | `Constants` | configuration values and lemmas about their layout |
| results.dfy | `Results` | `Option`, the `Outcome` of a fallible call, and the oracle of call outcomes (`Attempt`, `FirstFault`) |
| discovery.dfy | `Discovery` | the two candidate probes: drivetrain class and autonomous builder |
| mixer.dfy | `Mixer` | deadband, clamp, scaling and the four-way mix, as pure functions |
| drive.dfy | `DriveSubsystem` | the `Drive` class with its fault state, motor lists, warning log and write log |
| questnav.dfy | `QuestNav` | the bridge class, its publication log and rate limiter, and the pure verdicts and pose conversion |

Foreign effects are modelled as follows:

- **Fallible hardware and delegate calls.** Constructing a TalonFX or
  writing a duty cycle becomes an oracle `seq<Outcome>`. Entry k is the
  outcome of the operation's k-th fallible call; calls past the end of the
  oracle succeed.
- **Generated drivetrain and builder.** Calls to these become `Call`
  values: it returns, it raises `TypeError`, or it raises anything else.
- **Module imports and symbol look-ups.** These become `Lookup` values, one
  per candidate location.
- **Logs.** Motor writes, reported warnings and writes to output topics are
  appended, in order, to logs that are fields of the objects (`writes`,
  `warnings`, `published`).
- **Rate limiter.** `WarningRequest`/`Replay` describe, as values, what
  the limiter does with a run of warnings.

Behaviour of the code that may surprise a reader, and that the model keeps:

- `_disable` overwrites the disable reason on every call
  (src/subsystems/drive.py:57), so the reason is always the latest one.
  Only the first call reports a warning.
- An input of 0.5 is scaled by `MAX_TRANSLATION_OUTPUT` before mixing, so
  `drive(0.5, 0, 0)` writes 0.25 to each drive motor. See
  `DriveSubsystem.HalfForwardWrites`.
- A disabled subsystem returns `InstantCommand(lambda: None)`, a command
  that does nothing, from `get_autonomous_command`
  (src/subsystems/drive.py:213-214).

## Model

| member | source | states |
|---|---|---|
| Constants.AllCanIds | src/utils/constants.py:12-22 | the eight CAN identifiers: drive motors first in module order, then steer motors in module order |
| Constants.ModuleOrder | src/utils/constants.py:17-24 | four modules in the order front-left, front-right, back-left, back-right, on bus "rio" |
| Constants.CanIdLayout | src/utils/constants.py:12-15 | module i has drive motor i+1 and steer motor i+11 |
| Constants.CanIdsDistinct | src/utils/constants.py:12-15 | no two of the eight motor controllers share a CAN identifier |
| Constants.InputShaping | src/utils/constants.py:26-31 | both deadbands are 0.08; the output scales are 0.5 and 0.4, both fractions of full power |
| Constants.PayloadShape | src/utils/constants.py:42-46 | position and Euler arrays have 3 entries, the quaternion 4; the stale timeout is 0.25 s |
| Results.FirstFault | src/subsystems/drive.py:180-194 | the first failing call of a run: every earlier call succeeded and this one failed, or no call failed |
| Results.FirstFaultSplit | src/subsystems/drive.py:180-194 | in a run split into two phases, a fault in the first phase is the fault of the whole run (the second phase never starts); otherwise the second phase decides |
| Results.FirstFaultAt | src/subsystems/drive.py:67-82 | a failing call preceded only by successful calls is the first fault |
| Results.AllCallsSucceed | src/subsystems/drive.py:67-82 | a run whose calls all succeed has no fault |
| Results.FirstFaultOfNoFaults | src/subsystems/drive.py:196-210 | with no failing call in the oracle, every run completes |
| Discovery.FirstResolved | src/subsystems/drive.py:91-99 | the first candidate whose symbol resolves; no earlier candidate resolves |
| Discovery.FirstCallable | src/subsystems/drive.py:117-125 | the first candidate that resolves to a callable; no earlier candidate does |
| Discovery.DrivetrainDiscovery | src/subsystems/drive.py:84-109 | first match wins: a drivetrain is found iff the first resolving candidate constructs, and it is that candidate's drivetrain, with no warning; a warning is given iff that candidate fails to construct (a failing constructor or a symbol that is not callable), and it names that candidate and the failure; no resolving candidate gives no drivetrain and no warning |
| Discovery.FactoryDiscovery | src/subsystems/drive.py:111-126 | a builder is found iff some candidate resolves to a callable, and it is the first such candidate's `build_autonomous_command` |
| Discovery.TryCreateTunerDrivetrain | src/subsystems/drive.py:84-109 | the probe loop returns exactly the drivetrain and warning of DrivetrainDiscovery |
| Discovery.TryCreateTunerAutoFactory | src/subsystems/drive.py:111-126 | the probe loop returns exactly the builder of FactoryDiscovery |
| Discovery.LaterCandidatesIgnored | src/subsystems/drive.py:91-108 | candidates after the first resolving one never influence the search |
| Discovery.LaterFactoryCandidatesIgnored | src/subsystems/drive.py:117-125 | candidates after the first callable builder never influence the search |
| Discovery.ConstructionFailureStopsSearch | src/subsystems/drive.py:101-108 | a failing construction, or a symbol that is not callable, ends discovery with no drivetrain and its warning, whatever later candidates hold |
| Discovery.FirstLocationWins | src/subsystems/drive.py:91-109 | a constructing class at the first location is the drivetrain found; nothing resolving gives no drivetrain and no warning; a non-callable symbol at the second location gives the `TypeError` warning although the third would construct |
| Discovery.StubBuilderFoundFirst | src/subsystems/drive.py:112-116 | a builder at the first location (where the repository's stub lives) is the one found |
| Mixer.ApplyDeadband | src/subsystems/drive.py:128-131 | the result is 0 or the input; inputs strictly below the deadband in magnitude give 0; inputs at or above it pass unchanged |
| Mixer.Clamp | src/subsystems/drive.py:133-134 | the result lies in [-1, 1], equals the input inside that range and saturates outside it |
| Mixer.ScalesAreConfigured | src/subsystems/drive.py:161-167 | translation is scaled by MaxTranslationOutput and rotation by MaxRotationOutput, each after its deadband |
| Mixer.Mix | src/subsystems/drive.py:170-175 | four outputs, one per module, each in [-1, 1] |
| Mixer.DriveOutputs | src/subsystems/drive.py:161-175 | four drive duty cycles, each in [-1, 1] |
| Mixer.SteerOutput | src/subsystems/drive.py:188 | the steer duty cycle lies in [-1, 1] |
| Mixer.ClampIdempotent | src/subsystems/drive.py:133-134 | clamping twice is clamping once |
| Mixer.DeadbandIdempotent | src/subsystems/drive.py:128-131 | applying a deadband twice is applying it once |
| Mixer.DriveOutputsExplicit | src/subsystems/drive.py:161-188 | with the configured constants written out: deadband 0.08, scales 0.5 and 0.4, and the sign table of the four modules |
| Mixer.InsideDeadbandIsStill | src/subsystems/drive.py:161-175 | inputs inside the deadband on every axis give all-zero outputs |
| Mixer.RotationReversalMirrors | src/subsystems/drive.py:170-175 | reversing rotation reverses the module order of the outputs and negates the steer output |
| Mixer.BringUpExamples | src/subsystems/drive.py:161-188 | full forward gives 0.5 on every module; half forward gives 0.25; full rotation gives ±0.4 and a steer output of 0.4 |
| Mixer.SaturatingExample | src/subsystems/drive.py:170-175 | saturating intent on all axes clamps the front-left output to 1 |
| DriveSubsystem.ExpectedMotorsLayout | src/subsystems/drive.py:67-74 | module i's handles sit at index i, on bus "rio", and all eight handles differ |
| DriveSubsystem.FactoryOutcome | src/subsystems/drive.py:228-232 | the builder's outcome is the no-argument call's, unless that raised `TypeError`; then it is the retry's |
| DriveSubsystem.Drive.StopWrites | src/subsystems/drive.py:199-210 | one write per motor held |
| DriveSubsystem.Drive.constructor | src/subsystems/drive.py:34-53 | the invariant holds; the builder is discovered always, the drivetrain only with the vendor library; enabled iff the library is present and all eight handles construct; otherwise the lists are empty and there is exactly one fault report with the reason of the failure |
| DriveSubsystem.Drive.Disable | src/subsystems/drive.py:55-60 | disabled, with the latest reason; a fault report is added only on the first call |
| DriveSubsystem.Drive.Fault | src/subsystems/drive.py:55-60 | disabling a subsystem that holds its invariant preserves the invariant |
| DriveSubsystem.Drive.AbandonHardware | src/subsystems/drive.py:75-82 | both motor lists are cleared and the subsystem is disabled with one fault report |
| DriveSubsystem.Drive.InitHardware | src/subsystems/drive.py:62-82 | without TalonFX: disabled with its message; otherwise all eight handles in module order, or, at the first failing construction, empty lists and one fault report naming it |
| DriveSubsystem.Drive.SetControls | src/subsystems/drive.py:180-185 | the writes before the first failing call reach the motors, and no write after it does |
| DriveSubsystem.Drive.WriteInPhases | src/subsystems/drive.py:180-194 | drive-motor writes, then steer-motor writes only when all drive writes went through, up to the first failing call |
| DriveSubsystem.Drive.WriteOrFault | src/subsystems/drive.py:196-210 | the prefix of writes up to the first failure; that failure disables with the message for its motor kind; the invariant holds |
| DriveSubsystem.Drive.Drive | src/subsystems/drive.py:136-194 | inert when disabled; a returning delegate does everything; a delegate raising other than `TypeError` disables without a write; otherwise the eight built-in writes up to the first failure, which disables with the drive or steer message |
| DriveSubsystem.Drive.DriveOpenLoop | src/subsystems/drive.py:161-194 | the open-loop writes up to the first failure; enabled iff none failed; on failure exactly one fault report with the motor kind's message |
| DriveSubsystem.Drive.Stop | src/subsystems/drive.py:196-210 | does nothing without the vendor library; otherwise zero to every motor up to the first failure; a failure disables; a report is added only if the subsystem was enabled |
| DriveSubsystem.Drive.GetAutonomousCommand | src/subsystems/drive.py:212-247 | disabled: a no-op; the drivetrain getter first, then the builder with its `TypeError` retry; a fault disables and yields a no-op; otherwise one advisory warning and the stop command |
| DriveSubsystem.StopTwice | src/subsystems/drive.py:196-210 | stopping twice without faults repeats the all-zero writes to the motors held before the call and leaves the enabled flag, disable reason, report flag, motor lists and warnings unchanged |
| DriveSubsystem.VendorLibraryMissing | src/subsystems/drive.py:46-50 | without the vendor library the subsystem is disabled with one report, never writes, and builds a no-op command |
| DriveSubsystem.BuiltInWritesLayout | src/subsystems/drive.py:180-194 | write i is module i's mixed output to its drive motor; write 4+i is the steer output to its steer motor; all outputs are in [-1, 1] |
| DriveSubsystem.StopWritesLayout | src/subsystems/drive.py:199-210 | zero to every held drive motor in order, then to every held steer motor |
| DriveSubsystem.HalfForwardWrites | src/subsystems/drive.py:161-194 | half forward intent writes 0.25 to motors 1-4 and 0 to motors 11-14 on "rio" |
| DriveSubsystem.BringUpScenario | src/subsystems/drive.py:212-247 | in the bring-up configuration the subsystem comes up enabled and half forward writes 0.25 and 0; the stub builder returns nothing, so autonomous falls back to the stop command with one advisory warning |
| QuestNav.NatToString | src/subsystems/nt_core_test.py:183 | a non-empty string of decimal digits without a leading zero |
| QuestNav.NatToStringRoundTrip | src/subsystems/nt_core_test.py:183 | reading back a formatted length gives the length |
| QuestNav.Limit | src/subsystems/nt_core_test.py:188-193 | a reported warning records its time under its key only; a suppressed one changes nothing |
| QuestNav.Replay | src/subsystems/nt_core_test.py:188-193 | a run of warnings only adds reports, at most one per warning, and leaves keys it does not use alone |
| QuestNav.RateLimitPerKey | src/subsystems/nt_core_test.py:188-193 | a report under one key neither records nor suppresses anything under another |
| QuestNav.RateLimitInterval | src/subsystems/nt_core_test.py:189-193 | after a report, the next warning under the same key is reported iff at least the interval has passed |
| QuestNav.SuppressedChangesNothing | src/subsystems/nt_core_test.py:190-191 | a suppressed warning leaves the limiter and the reports unchanged |
| QuestNav.ReplayConcat | src/subsystems/nt_core_test.py:122-131 | two batches of warnings in turn act as one batch |
| QuestNav.DataAge | src/subsystems/nt_core_test.py:116-119 | -1 without a positive timestamp; otherwise the seconds elapsed since the microsecond timestamp |
| QuestNav.ConnectedMeans | src/subsystems/nt_core_test.py:131-133 | connected iff the lengths are 3, 3 and 4, the timestamp is positive, and it lies between `now` minus the timeout and `now` |
| QuestNav.NotConnectedWithoutTimestampOrPayload | src/subsystems/nt_core_test.py:131-133 | no positive timestamp, or any array of the wrong length, is never connected |
| QuestNav.ToWpilibPose | src/subsystems/nt_core_test.py:157-170 | the remap preserves the translation's length, sends the headset's up axis to z, and keeps yaw |
| QuestNav.FromWpilibPose | src/subsystems/nt_core_test.py:168-169 | the inverse remap yields three position and three angle values |
| QuestNav.PoseRoundTrip | src/subsystems/nt_core_test.py:157-170 | the frame conversion is a bijection: undoing it recovers the headset values, and the reverse also holds |
| QuestNav.PoseAtRest | src/subsystems/nt_core_test.py:168-169 | a headset at rest maps to the origin with a -90 degree offset; headset forward maps to robot backward |
| QuestNav.LengthRequests | src/subsystems/nt_core_test.py:172-186 | at most one warning, and none iff the length is the expected one |
| QuestNav.LengthKeysDistinct | src/subsystems/nt_core_test.py:181-183 | the three length keys, the read key and the pose key are pairwise different limiter keys |
| QuestNav.PayloadRequests | src/subsystems/nt_core_test.py:122-131 | no length warning iff the payload is well formed |
| QuestNav.UpdateRequests | src/subsystems/nt_core_test.py:98-155 | every warning of one update carries that update's time |
| QuestNav.UpdateConnected | src/subsystems/nt_core_test.py:132-155 | after an update, `Connected` holds: the sample was read, is well formed and fresh, and its pose converted |
| QuestNav.ReadFailurePublishesOnlyFallback | src/subsystems/nt_core_test.py:98-106 | a failed read writes only `connected = false` and age -1, with one warning under the read key |
| QuestNav.PoseOnlyForWellFormedPayload | src/subsystems/nt_core_test.py:136-147 | a pose is published iff the payload is well formed and conversion succeeds; a malformed payload never reaches conversion |
| QuestNav.UpdateDataAge | src/subsystems/nt_core_test.py:108-120 | the raw values come first, then the data age of the sample (or -1 after a failed read) |
| QuestNav.WellFormedPayloadIsQuiet | src/subsystems/nt_core_test.py:122-131 | a well-formed payload whose conversion succeeds asks for no warning |
| QuestNav.QuestNavNtBridge.constructor | src/subsystems/nt_core_test.py:14-74 | the given timeout (by default the configured 0.25 s), a 1 s warning interval, an empty limiter; publishes disconnected, age -1, teleop inactive, then the default start pose |
| QuestNav.QuestNavNtBridge.PublishDefaultStartPose | src/subsystems/nt_core_test.py:195-213 | publishes the pose x = 1 m, y = 8.07/2 m, heading 0 |
| QuestNav.QuestNavNtBridge.OnTeleopEnable | src/subsystems/nt_core_test.py:76-82 | publishes teleop active, disconnected, age -1 and the start pose; `Connected` then reads false |
| QuestNav.QuestNavNtBridge.OnTeleopDisable | src/subsystems/nt_core_test.py:84-86 | publishes teleop inactive and disconnected; `Connected` then reads false |
| QuestNav.QuestNavNtBridge.WarnRateLimited | src/subsystems/nt_core_test.py:188-193 | the limiter and warning log move by exactly one Step of the rate limiter |
| QuestNav.QuestNavNtBridge.IsExpectedLength | src/subsystems/nt_core_test.py:172-186 | true iff the length is the expected one; a mismatch goes through the limiter under the array's key |
| QuestNav.QuestNavNtBridge.CheckPayload | src/subsystems/nt_core_test.py:122-131 | the payload verdict; the three length warnings go through the limiter in order |
| QuestNav.QuestNavNtBridge.Update | src/subsystems/nt_core_test.py:88-155 | appends exactly the update's publications; the limiter replays exactly its warnings; `Connected` ends up holding the verdict |
| QuestNav.QuestNavNtBridge.PublishSample | src/subsystems/nt_core_test.py:108-155 | after a successful read: raw values, age, verdict and, for a well-formed payload, the pose or the conversion failure |

## Left out

- `src/robot.py` (mode transitions and the operator controller) is not part
  of this model. Neither is the scheduler that runs the commands: `Command`
  only says which command was handed over.
- Floating point: durations, duty cycles and poses are `real`s. Rounding
  and NaN are not modelled.
- The `DutyCycleOut is None` branch inside `drive`
  (src/subsystems/drive.py:176-178) is not modelled. It cannot be reached:
  a subsystem without the vendor library is disabled from construction, and
  `drive` returns first. The invariant `Valid` states this.
- `field_oriented` is accepted by `Drive` but has no effect, as in the
  source. It would only be handed to a delegate, and delegate calls are
  outcomes here.
- `time.monotonic()` is not read: `Update` takes `now` as a parameter.
- Reading the NetworkTables subscribers becomes the `ReadResult` input.
- Server start-up, topic creation and the `Field2d` widget are not modelled.
- The trigonometry of `Rotation3d.fromDegrees` and `toPose2d` is not
  modelled. A pose is kept as its translation and the three degree
  arguments.
- `Pose` stands for the paired writes of the 3-D pose, the 2-D pose and the
  field widget.
- Whether pose conversion raises is the `poseConversion` input. It applies
  to the whole block that converts and publishes.
- The vendor import and the existence of the TalonFX and DutyCycleOut
  classes are modelled as one flag, `phoenixAvailable`. The source loads
  them in one block, so both are present or both are absent.
- Discovery.TryCreateTunerAutoFactory: only a missing module is skipped
  (src/subsystems/drive.py:94, :120). An import that fails any other way
  (an `ImportError`, a `SyntaxError`, an exception in the module's
  top-level code) escapes the probe. The probe is called outside any
  `try` (src/subsystems/drive.py:40-42), so it escapes the constructor
  too. `Lookup` has no outcome for this, so such a construction is not
  modelled and the model's constructor always returns.
- Discovery.TryCreateTunerDrivetrain: the same holds for the drivetrain
  probe (src/subsystems/drive.py:93-95, called at :52). An import failure
  other than a missing module escapes the constructor and is not modelled.
- QuestNav.QuestNavNtBridge.constructor: src/subsystems/nt_core_test.py:25
  reads `QuestNavConstants.SERVER_NAME`. src/utils/constants.py:38-46 does
  not define that name, so the source's constructor as written raises
  `AttributeError` before its first publication (line 65), and no bridge
  can be built. The model assumes the constant is defined, leaves the
  server start-up out, and its constructor always returns.
- The `scheduler` argument of `Drive.__init__` (src/subsystems/drive.py:34-35)
  is stored and never read, so the model does not carry it.
- Which exception a hardware call raises is not modelled. Only its message
  is kept.
- DriveSubsystem.Drive.StopWrites: its contract states only the number of
  writes. Their contents are stated by `StopWritesLayout`.
