/**
 * The drive subsystem: owns the eight motor-controller handles of the four
 * swerve modules (or none), the one-way enabled/disabled fault state, and
 * the command surface `drive`, `stop` and `getAutonomousCommand`. Every
 * hardware or delegate call is fallible; its outcomes are supplied as
 * oracles, and the motor writes and warning reports are recorded in logs.
 */
module DriveSubsystem {
  import opened Constants
  import opened Results
  import opened Discovery
  import opened Mixer

  /** A motor-controller handle: a device on a CAN bus. */
  datatype TalonFX = TalonFX(deviceId: int, canbus: string)

  datatype MotorKind = DriveMotor | SteerMotor

  /** One open-loop duty-cycle command that reached a motor controller. */
  datatype MotorWrite = MotorWrite(kind: MotorKind, motor: TalonFX, output: real)

  /** A warning report: the one that announces a subsystem fault, or any other. */
  datatype Warning = FaultReport(message: string) | Advisory(message: string)

  /** A command object produced outside this subsystem. */
  datatype ExternalCommand = ExternalCommand(name: string)

  /** What a delegate call returned: nothing, an object the scheduler cannot
      run, or a schedulable command. */
  datatype Returned = NothingReturned | NotSchedulable | Schedulable(command: ExternalCommand)

  /** The outcome of calling a delegate: it returns, it raises a signature
      mismatch (a `TypeError`), or it raises any other fault. */
  datatype Call = Returns(value: Returned) | RaisesTypeError(reason: string) | Raises(reason: string)

  /** The command handed to the scheduler on entry to autonomous mode: one that
      does nothing, one that stops the drive, or one supplied by a delegate. */
  datatype Command = NoOpCommand | StopCommand | Delegated(command: ExternalCommand)

  const PhoenixMissingMessage := "Phoenix 6 is not available; running with swerve drive disabled."
  const TalonFXMissingMessage := "Phoenix 6 TalonFX class unavailable; swerve drive disabled."
  const NoAutonomousSourceMessage := "No Phoenix 6 Tuner autonomous command source found; using stop command."

  function OutputFailureMessage(kind: MotorKind, reason: string): string
  {
    (if kind == DriveMotor then "Swerve drive output failed: " else "Swerve steer output failed: ") + reason
  }

  function StopFailureMessage(kind: MotorKind, reason: string): string
  {
    (if kind == DriveMotor then "Swerve stop failed on drive motor: " else "Swerve stop failed on steer motor: ") + reason
  }

  /** The warning for a failing write of `stop` (stopping) or of `drive`. */
  function WriteFailureMessage(stopping: bool, kind: MotorKind, reason: string): string
  {
    if stopping then StopFailureMessage(kind, reason) else OutputFailureMessage(kind, reason)
  }

  function HardwareInitMessage(reason: string): string
  {
    "Failed to initialize swerve hardware on CAN bus '" + CanbusName + "': " + reason
  }

  /** The handle of one module's drive or steer motor. */
  function Handle(kind: MotorKind, m: SwerveModuleCanIds): TalonFX
  {
    TalonFX(if kind == DriveMotor then m.driveMotorId else m.steerMotorId, CanbusName)
  }

  /** The handles a fully initialised subsystem holds, in module order. */
  function ExpectedMotors(kind: MotorKind): seq<TalonFX>
  {
    [Handle(kind, Modules[0]), Handle(kind, Modules[1]), Handle(kind, Modules[2]), Handle(kind, Modules[3])]
  }

  /** Module i's drive and steer handles sit at index i of their lists, all
      on the configured bus, and no two of the eight handles coincide. */
  lemma ExpectedMotorsLayout()
    ensures |ExpectedMotors(DriveMotor)| == |ExpectedMotors(SteerMotor)| == |Modules|
    ensures forall i :: 0 <= i < |Modules| ==>
      && ExpectedMotors(DriveMotor)[i] == TalonFX(Modules[i].driveMotorId, "rio")
      && ExpectedMotors(SteerMotor)[i] == TalonFX(Modules[i].steerMotorId, "rio")
    ensures forall i, j :: 0 <= i < |Modules| && 0 <= j < |Modules| ==>
      ExpectedMotors(DriveMotor)[i] != ExpectedMotors(SteerMotor)[j]
      && (i != j ==> ExpectedMotors(DriveMotor)[i] != ExpectedMotors(DriveMotor)[j]
                     && ExpectedMotors(SteerMotor)[i] != ExpectedMotors(SteerMotor)[j])
  {
  }

  function Min(a: nat, b: nat): nat
  {
    if a <= b then a else b
  }

  /** One write per motor paired with its output, as far as both lists reach. */
  function ZipWrites(kind: MotorKind, motors: seq<TalonFX>, outputs: seq<real>): (ws: seq<MotorWrite>)
    ensures |ws| == Min(|motors|, |outputs|)
  {
    seq(Min(|motors|, |outputs|), i requires 0 <= i < Min(|motors|, |outputs|) => MotorWrite(kind, motors[i], outputs[i]))
  }

  function Repeat(v: real, n: nat): seq<real>
  {
    seq(n, _ => v)
  }

  /** A prefix of a concatenation: within the first part, or the whole first
      part followed by a prefix of the second. */
  lemma PrefixOfConcat<T>(a: seq<T>, b: seq<T>, k: nat)
    requires k <= |a| + |b|
    ensures k <= |a| ==> (a + b)[..k] == a[..k]
    ensures k >= |a| ==> (a + b)[..k] == a + b[..k - |a|]
  {
    if k >= |a| {
      assert (a + b)[..k] == a + b[..k - |a|];
    }
  }

  /** The number of fault reports in a warning log. */
  function FaultReports(ws: seq<Warning>): nat
  {
    if ws == [] then 0
    else FaultReports(ws[..|ws| - 1]) + (if ws[|ws| - 1].FaultReport? then 1 else 0)
  }

  lemma FaultReportsAppend(ws: seq<Warning>, w: Warning)
    ensures FaultReports(ws + [w]) == FaultReports(ws) + (if w.FaultReport? then 1 else 0)
  {
    assert (ws + [w])[..|ws|] == ws;
  }

  /** The effective outcome of invoking the autonomous builder: called with no
      arguments, and on a signature mismatch called once more with the
      subsystem as its argument. */
  function FactoryOutcome(first: Call, retry: Call): (c: Call)
    ensures !first.RaisesTypeError? ==> c == first
    ensures first.RaisesTypeError? ==> c == retry
  {
    if first.RaisesTypeError? then retry else first
  }

  /** A delegate result that is returned to the scheduler as it is. */
  predicate YieldsCommand(c: Call)
  {
    c.Returns? && c.value.Schedulable?
  }

  class Drive {
    /** Whether the vendor motor-controller library could be loaded. */
    const phoenixAvailable: bool
    /** The generated drivetrain found at construction, if any; never replaced. */
    const tunerDrivetrain: Option<Drivetrain>
    /** The autonomous-command builder found at construction, if any; never replaced. */
    const autonomousFactory: Option<Factory>

    var enabled: bool
    var disableReason: Option<string>
    var disableReported: bool
    var driveMotors: seq<TalonFX>
    var steerMotors: seq<TalonFX>
    /** Every warning reported by this object, in order. */
    var warnings: seq<Warning>
    /** Every duty-cycle command that reached a motor, in order. */
    var writes: seq<MotorWrite>

    /** Both motor lists hold the four modules' handles, index-aligned with Modules. */
    predicate HardwareReady()
      reads this`driveMotors, this`steerMotors
    {
      driveMotors == ExpectedMotors(DriveMotor) && steerMotors == ExpectedMotors(SteerMotor)
    }

    /** The object invariant: the motor lists are full or empty (and then the
        subsystem is disabled); disabled exactly when a fault was reported, and
        then with exactly one fault report in the warning log. */
    ghost predicate Valid()
      reads this`enabled, this`disableReason, this`disableReported, this`driveMotors, this`steerMotors, this`warnings
    {
      && (HardwareReady() || (driveMotors == [] && steerMotors == [] && !enabled))
      && disableReported == !enabled
      && disableReason.Some? == !enabled
      && FaultReports(warnings) == (if enabled then 0 else 1)
      && (!phoenixAvailable ==> !enabled && tunerDrivetrain == None)
    }

    /** The state just before the hardware is constructed. */
    ghost predicate Pristine()
      reads this
    {
      enabled && !disableReported && disableReason == None && FaultReports(warnings) == 0
      && driveMotors == [] && steerMotors == []
    }

    /** The writes of the open-loop path for given outputs: one output per
        drive motor in module order, then one shared output to every steer
        motor. */
    function OpenLoopWrites(driveOutputs: seq<real>, steerOutput: real): seq<MotorWrite>
      reads this`driveMotors, this`steerMotors
    {
      ZipWrites(DriveMotor, driveMotors, driveOutputs)
      + ZipWrites(SteerMotor, steerMotors, Repeat(steerOutput, |steerMotors|))
    }

    /** The writes of the built-in drive path: the four mixed outputs to the
        drive motors in module order, then the steer output to every steer motor. */
    function BuiltInWrites(xDisplacement: real, yDisplacement: real, rotation: real): seq<MotorWrite>
      reads this`driveMotors, this`steerMotors
    {
      OpenLoopWrites(DriveOutputs(xDisplacement, yDisplacement, rotation), SteerOutput(rotation))
    }

    /** The writes of `stop`: zero to every drive motor, then to every steer motor. */
    function StopWrites(): (ws: seq<MotorWrite>)
      reads this`driveMotors, this`steerMotors
      ensures |ws| == |driveMotors| + |steerMotors|
    {
      ZipWrites(DriveMotor, driveMotors, Repeat(0.0, |driveMotors|))
      + ZipWrites(SteerMotor, steerMotors, Repeat(0.0, |steerMotors|))
    }

    /** Whether `drive` is handed to the generated drivetrain first. */
    predicate DelegatesDrive()
    {
      tunerDrivetrain.Some? && tunerDrivetrain.value.hasDrive
    }

    /** Whether `getAutonomousCommand` asks the generated drivetrain first. */
    predicate DelegatesAutonomous()
    {
      tunerDrivetrain.Some? && tunerDrivetrain.value.hasAutonomousGetter
    }

    /** Builds the subsystem: discovers an autonomous builder, then (when the
        vendor library is present) a generated drivetrain, then constructs the
        eight motor handles in module order, all or nothing. Construction call
        2i builds module i's drive handle, call 2i+1 its steer handle. */
    constructor (phoenix: bool, factoryLookups: seq<Lookup<FactorySymbol>>,
                 drivetrainLookups: seq<Lookup<DrivetrainClass>>, construction: seq<Outcome>)
      requires |factoryLookups| == |FactoryCandidates| && |drivetrainLookups| == |DrivetrainCandidates|
      ensures Valid()
      ensures phoenixAvailable == phoenix
      ensures autonomousFactory == FactoryDiscovery(factoryLookups)
      ensures tunerDrivetrain == if phoenix then DrivetrainDiscovery(drivetrainLookups).0 else None
      ensures writes == []
      ensures enabled == (phoenix && FirstFault(construction, 0, 2 * |Modules|) == 2 * |Modules|)
      ensures enabled ==> HardwareReady()
      ensures !enabled ==> driveMotors == [] && steerMotors == []
      ensures !phoenix ==> disableReason == Some(PhoenixMissingMessage)
      ensures phoenix && !enabled ==>
        disableReason == Some(HardwareInitMessage(Attempt(construction, FirstFault(construction, 0, 2 * |Modules|)).reason))
      ensures var discoveryWarning := if phoenix then DrivetrainDiscovery(drivetrainLookups).1 else None;
        warnings == (if discoveryWarning.Some? then [Advisory(discoveryWarning.value)] else [])
                    + (if enabled then [] else [FaultReport(disableReason.value)])
    {
      phoenixAvailable := phoenix;
      enabled := true;
      disableReason := None;
      disableReported := false;
      var factory := TryCreateTunerAutoFactory(factoryLookups);
      autonomousFactory := factory;
      driveMotors := [];
      steerMotors := [];
      writes := [];
      var found: Option<Drivetrain> := None;
      var warning: Option<string> := None;
      if phoenix {
        found, warning := TryCreateTunerDrivetrain(drivetrainLookups);
      }
      tunerDrivetrain := found;
      warnings := if warning.Some? then [Advisory(warning.value)] else [];
      new;
      assert FaultReports(warnings) == 0 by {
        if warning.Some? { FaultReportsAppend([], Advisory(warning.value)); }
      }
      ghost var discovered := warnings;
      if !phoenix {
        Disable(PhoenixMissingMessage);
        assert warnings == discovered + [FaultReport(PhoenixMissingMessage)];
      } else {
        InitHardware(construction);
        assert HardwareReady() || (driveMotors == [] && steerMotors == [] && !enabled);
        assert warnings == discovered + (if enabled then [] else [FaultReport(disableReason.value)]);
      }
    }

    /** Disables the subsystem for good. The reason always becomes the latest
        one; a warning is reported only by the first call. */
    method Disable(reason: string)
      modifies this`enabled, this`disableReason, this`disableReported, this`warnings
      ensures !enabled && disableReported && disableReason == Some(reason)
      ensures warnings == old(warnings) + (if old(disableReported) then [] else [FaultReport(reason)])
      ensures FaultReports(warnings) == old(FaultReports(warnings)) + (if old(disableReported) then 0 else 1)
    {
      enabled := false;
      disableReason := Some(reason);
      if !disableReported {
        disableReported := true;
        FaultReportsAppend(warnings, FaultReport(reason));
        warnings := warnings + [FaultReport(reason)];
      }
    }

    /** Disable on a subsystem that holds its invariant: the invariant survives. */
    method Fault(reason: string)
      requires Valid()
      modifies this`enabled, this`disableReason, this`disableReported, this`warnings
      ensures Valid()
      ensures !enabled && disableReported && disableReason == Some(reason)
      ensures warnings == old(warnings) + (if old(disableReported) then [] else [FaultReport(reason)])
    {
      Disable(reason);
    }

    /** Clears both motor lists and disables the subsystem, on a handle
        construction failure during start-up. */
    method AbandonHardware(reason: string)
      requires !disableReported && FaultReports(warnings) == 0
      modifies this`driveMotors, this`steerMotors, this`enabled, this`disableReason, this`disableReported, this`warnings
      ensures driveMotors == [] && steerMotors == [] && !enabled && disableReported
      ensures disableReason == Some(reason) && warnings == old(warnings) + [FaultReport(reason)]
      ensures FaultReports(warnings) == 1
    {
      driveMotors, steerMotors := [], [];
      Disable(reason);
    }

    /** Constructs the drive and steer handle of each module in order; the
        first failing construction clears both lists and disables. */
    method InitHardware(construction: seq<Outcome>)
      requires Pristine()
      modifies this`driveMotors, this`steerMotors, this`enabled, this`disableReason, this`disableReported, this`warnings
      ensures FaultReports(warnings) == if enabled then 0 else 1
      ensures !phoenixAvailable ==>
        && driveMotors == [] && steerMotors == [] && !enabled && disableReported
        && disableReason == Some(TalonFXMissingMessage)
        && warnings == old(warnings) + [FaultReport(TalonFXMissingMessage)]
      ensures phoenixAvailable ==> var f := FirstFault(construction, 0, 2 * |Modules|);
        if f == 2 * |Modules| then
          HardwareReady() && enabled && !disableReported && disableReason == None && warnings == old(warnings)
        else && driveMotors == [] && steerMotors == [] && !enabled && disableReported
             && disableReason == Some(HardwareInitMessage(Attempt(construction, f).reason))
             && warnings == old(warnings) + [FaultReport(HardwareInitMessage(Attempt(construction, f).reason))]
    {
      if !phoenixAvailable {
        Disable(TalonFXMissingMessage);
        return;
      }
      var i := 0;
      while i < |Modules|
        invariant 0 <= i <= |Modules|
        invariant |driveMotors| == |steerMotors| == i
        invariant forall k :: 0 <= k < i ==> driveMotors[k] == Handle(DriveMotor, Modules[k])
        invariant forall k :: 0 <= k < i ==> steerMotors[k] == Handle(SteerMotor, Modules[k])
        invariant forall k :: 0 <= k < 2 * i ==> Attempt(construction, k).Ok?
        invariant enabled && !disableReported && disableReason == None && warnings == old(warnings)
        invariant FaultReports(warnings) == 0
      {
        if Attempt(construction, 2 * i).Fail? {
          FirstFaultAt(construction, 0, 2 * |Modules|, 2 * i);
          AbandonHardware(HardwareInitMessage(Attempt(construction, 2 * i).reason));
          return;
        }
        driveMotors := driveMotors + [Handle(DriveMotor, Modules[i])];
        if Attempt(construction, 2 * i + 1).Fail? {
          FirstFaultAt(construction, 0, 2 * |Modules|, 2 * i + 1);
          AbandonHardware(HardwareInitMessage(Attempt(construction, 2 * i + 1).reason));
          return;
        }
        steerMotors := steerMotors + [Handle(SteerMotor, Modules[i])];
        i := i + 1;
      }
      AllCallsSucceed(construction, 0, 2 * |Modules|);
      assert driveMotors == ExpectedMotors(DriveMotor);
      assert steerMotors == ExpectedMotors(SteerMotor);
    }

    /** Issues the prepared duty-cycle commands in order, the k-th of them
        being fallible call first + k; stops at the first failure and returns
        its call index, or first + |commands| when all succeed. */
    method SetControls(commands: seq<MotorWrite>, outcomes: seq<Outcome>, first: nat) returns (fault: nat)
      modifies this`writes
      ensures fault == FirstFault(outcomes, first, first + |commands|)
      ensures writes == old(writes) + commands[..fault - first]
    {
      var i := 0;
      while i < |commands|
        invariant 0 <= i <= |commands|
        invariant forall k :: first <= k < first + i ==> Attempt(outcomes, k).Ok?
        invariant writes == old(writes) + commands[..i]
      {
        if Attempt(outcomes, first + i).Fail? {
          return first + i;
        }
        writes := writes + [commands[i]];
        i := i + 1;
      }
      return first + |commands|;
    }

    /** Issues the drive-motor commands, then (only if all of them went
        through) the steer-motor commands, as one run of fallible calls
        numbered from zero; returns the index of the failing call, or the
        number of commands when all succeed. */
    method WriteInPhases(driveWrites: seq<MotorWrite>, steerWrites: seq<MotorWrite>, outcomes: seq<Outcome>)
      returns (fault: nat)
      modifies this`writes
      ensures fault == FirstFault(outcomes, 0, |driveWrites| + |steerWrites|)
      ensures writes == old(writes) + (driveWrites + steerWrites)[..fault]
    {
      var n := |driveWrites|;
      FirstFaultSplit(outcomes, 0, n, n + |steerWrites|);
      fault := SetControls(driveWrites, outcomes, 0);
      PrefixOfConcat(driveWrites, steerWrites, fault);
      if fault < n {
        return;
      }
      fault := SetControls(steerWrites, outcomes, n);
      PrefixOfConcat(driveWrites, steerWrites, fault);
    }

    /** Issues the drive-motor and then the steer-motor commands as one run of
        fallible calls; the first failing call disables with the warning of
        `stop` (stopping) or of `drive` for that motor kind and abandons the rest. */
    method WriteOrFault(driveWrites: seq<MotorWrite>, steerWrites: seq<MotorWrite>, outcomes: seq<Outcome>, stopping: bool)
      returns (fault: nat)
      requires Valid()
      modifies this`enabled, this`disableReason, this`disableReported, this`warnings, this`writes
      ensures Valid()
      ensures fault == FirstFault(outcomes, 0, |driveWrites| + |steerWrites|)
      ensures writes == old(writes) + (driveWrites + steerWrites)[..fault]
      ensures fault == |driveWrites| + |steerWrites| ==>
        enabled == old(enabled) && disableReason == old(disableReason) && warnings == old(warnings)
      ensures fault < |driveWrites| + |steerWrites| ==>
        && !enabled
        && disableReason == Some(WriteFailureMessage(stopping, if fault < |driveWrites| then DriveMotor else SteerMotor,
                                                     Attempt(outcomes, fault).reason))
        && warnings == old(warnings) + (if old(enabled) then [FaultReport(disableReason.value)] else [])
    {
      fault := WriteInPhases(driveWrites, steerWrites, outcomes);
      if fault < |driveWrites| + |steerWrites| {
        Fault(WriteFailureMessage(stopping, if fault < |driveWrites| then DriveMotor else SteerMotor, Attempt(outcomes, fault).reason));
      }
    }

    /** Drives with operator intent; inert when disabled. A generated
        drivetrain exposing `drive` is tried first: a signature mismatch falls
        through to the built-in path, any other fault disables without a write.
        The built-in path writes the four mixed outputs, then the steer output,
        and stops and disables at the first failing write (call k of the
        oracle is the k-th write). The field-oriented flag is not acted upon. */
    method Drive(xDisplacement: real, yDisplacement: real, rotation: real, fieldOriented: bool := false,
                 delegate: Call, outcomes: seq<Outcome>)
      requires Valid()
      modifies this`enabled, this`disableReason, this`disableReported, this`warnings, this`writes
      ensures Valid()
      ensures enabled ==> old(enabled)
      ensures !old(enabled) ==> unchanged(this)
      ensures old(enabled) && DelegatesDrive() && delegate.Returns? ==> unchanged(this)
      ensures old(enabled) && DelegatesDrive() && delegate.Raises? ==>
        && writes == old(writes) && !enabled
        && disableReason == Some("Tuner drivetrain drive call failed: " + delegate.reason)
        && warnings == old(warnings) + [FaultReport(disableReason.value)]
      ensures old(enabled) && (!DelegatesDrive() || delegate.RaisesTypeError?) ==>
        var planned := BuiltInWrites(xDisplacement, yDisplacement, rotation);
        var f := FirstFault(outcomes, 0, |planned|);
        && |planned| == 2 * |Modules|
        && writes == old(writes) + planned[..f]
        && enabled == (f == |planned|)
        && (f == |planned| ==> warnings == old(warnings) && disableReason == old(disableReason))
        && (f < |planned| ==>
              && disableReason == Some(OutputFailureMessage(if f < |Modules| then DriveMotor else SteerMotor,
                                                            Attempt(outcomes, f).reason))
              && warnings == old(warnings) + [FaultReport(disableReason.value)])
    {
      if !enabled {
        return;
      }
      if DelegatesDrive() {
        match delegate {
          case Returns(_) =>
            return;
          case RaisesTypeError(_) =>
          case Raises(r) =>
            Fault("Tuner drivetrain drive call failed: " + r);
            return;
        }
      }
      DriveOpenLoop(DriveOutputs(xDisplacement, yDisplacement, rotation), SteerOutput(rotation), outcomes);
    }

    /** The built-in open-loop path of `drive` on an enabled subsystem, for
        the given outputs: one per drive motor, then the steer output to every
        steer motor; call k of the oracle is the k-th write, and the first
        failing write disables and abandons the rest. */
    method DriveOpenLoop(driveOutputs: seq<real>, steerOutput: real, outcomes: seq<Outcome>)
      requires Valid() && enabled && |driveOutputs| == |Modules|
      modifies this`enabled, this`disableReason, this`disableReported, this`warnings, this`writes
      ensures Valid()
      ensures var planned := OpenLoopWrites(driveOutputs, steerOutput);
        var f := FirstFault(outcomes, 0, |planned|);
        && |planned| == 2 * |Modules|
        && writes == old(writes) + planned[..f]
        && enabled == (f == |planned|)
        && (f == |planned| ==> warnings == old(warnings) && disableReason == old(disableReason))
        && (f < |planned| ==>
              && disableReason == Some(OutputFailureMessage(if f < |Modules| then DriveMotor else SteerMotor,
                                                            Attempt(outcomes, f).reason))
              && warnings == old(warnings) + [FaultReport(disableReason.value)])
    {
      var driveWrites := ZipWrites(DriveMotor, driveMotors, driveOutputs);
      var steerWrites := ZipWrites(SteerMotor, steerMotors, Repeat(steerOutput, |steerMotors|));
      assert HardwareReady();
      assert |driveWrites| == |steerWrites| == |Modules|;
      ghost var planned := driveWrites + steerWrites;
      assert OpenLoopWrites(driveOutputs, steerOutput) == planned;
      var fault := WriteOrFault(driveWrites, steerWrites, outcomes, false);
      assert OpenLoopWrites(driveOutputs, steerOutput) == planned && fault == FirstFault(outcomes, 0, |planned|);
    }

    /** Writes zero to every drive motor, then to every steer motor, whether
        or not the subsystem is enabled; the first failing write disables and
        abandons the rest. Does nothing when the vendor library is missing. */
    method Stop(outcomes: seq<Outcome>)
      requires Valid()
      modifies this`enabled, this`disableReason, this`disableReported, this`warnings, this`writes
      ensures Valid()
      ensures enabled ==> old(enabled)
      ensures !phoenixAvailable ==> unchanged(this)
      ensures phoenixAvailable ==>
        var planned := StopWrites();
        var f := FirstFault(outcomes, 0, |planned|);
        && writes == old(writes) + planned[..f]
        && (f == |planned| ==>
              enabled == old(enabled) && disableReason == old(disableReason) && warnings == old(warnings))
        && (f < |planned| ==>
              && !enabled
              && disableReason == Some(StopFailureMessage(if f < |driveMotors| then DriveMotor else SteerMotor,
                                                          Attempt(outcomes, f).reason))
              && warnings == old(warnings) + (if old(enabled) then [FaultReport(disableReason.value)] else []))
    {
      if !phoenixAvailable {
        return;
      }
      var driveWrites := ZipWrites(DriveMotor, driveMotors, Repeat(0.0, |driveMotors|));
      var steerWrites := ZipWrites(SteerMotor, steerMotors, Repeat(0.0, |steerMotors|));
      assert |driveWrites| == |driveMotors| && |steerWrites| == |steerMotors|;
      ghost var planned := driveWrites + steerWrites;
      assert StopWrites() == planned;
      var fault := WriteOrFault(driveWrites, steerWrites, outcomes, true);
      assert StopWrites() == planned && fault == FirstFault(outcomes, 0, |planned|);
    }

    /** The command for autonomous mode; it never fails. Disabled: a no-op.
        Then the generated drivetrain's getter, if it has one: a schedulable
        result is returned, nothing or a non-schedulable result falls through,
        any fault disables and yields a no-op. Then the discovered builder,
        called with no arguments and on a signature mismatch once more with
        the subsystem: a schedulable result is returned, any other fault
        disables and yields a no-op. Otherwise a warning and a stop command. */
    method GetAutonomousCommand(getter: Call, firstCall: Call, retryCall: Call) returns (command: Command)
      requires Valid()
      modifies this`enabled, this`disableReason, this`disableReported, this`warnings
      ensures Valid()
      ensures enabled ==> old(enabled)
      ensures !old(enabled) ==> command == NoOpCommand && unchanged(this)
      ensures old(enabled) && DelegatesAutonomous() && !getter.Returns? ==>
        && command == NoOpCommand && !enabled
        && disableReason == Some("Tuner drivetrain autonomous getter failed: " + getter.reason)
        && warnings == old(warnings) + [FaultReport(disableReason.value)]
      ensures old(enabled) && DelegatesAutonomous() && YieldsCommand(getter) ==>
        command == Delegated(getter.value.command) && unchanged(this)
      ensures var fellThrough := old(enabled) && (!DelegatesAutonomous() || (getter.Returns? && !YieldsCommand(getter)));
              var outcome := FactoryOutcome(firstCall, retryCall);
        && (fellThrough && autonomousFactory.Some? && !outcome.Returns? ==>
              && command == NoOpCommand && !enabled
              && disableReason == Some("Autonomous factory invocation failed: " + outcome.reason)
              && warnings == old(warnings) + [FaultReport(disableReason.value)])
        && (fellThrough && autonomousFactory.Some? && YieldsCommand(outcome) ==>
              command == Delegated(outcome.value.command) && unchanged(this))
        && (fellThrough && (autonomousFactory.None? || (outcome.Returns? && !YieldsCommand(outcome))) ==>
              && command == StopCommand && enabled
              && disableReason == old(disableReason)
              && warnings == old(warnings) + [Advisory(NoAutonomousSourceMessage)])
    {
      if !enabled {
        return NoOpCommand;
      }
      if DelegatesAutonomous() {
        match getter {
          case Returns(v) =>
            if v.Schedulable? {
              return Delegated(v.command);
            }
          case RaisesTypeError(r) =>
            Fault("Tuner drivetrain autonomous getter failed: " + r);
            return NoOpCommand;
          case Raises(r) =>
            Fault("Tuner drivetrain autonomous getter failed: " + r);
            return NoOpCommand;
        }
      }
      if autonomousFactory.Some? {
        var result := firstCall;
        if firstCall.RaisesTypeError? {
          result := retryCall;
        }
        match result {
          case Returns(v) =>
            if v.Schedulable? {
              return Delegated(v.command);
            }
          case RaisesTypeError(r) =>
            Fault("Autonomous factory invocation failed: " + r);
            return NoOpCommand;
          case Raises(r) =>
            Fault("Autonomous factory invocation failed: " + r);
            return NoOpCommand;
        }
      }
      FaultReportsAppend(warnings, Advisory(NoAutonomousSourceMessage));
      warnings := warnings + [Advisory(NoAutonomousSourceMessage)];
      return StopCommand;
    }
  }

  /** Stopping twice with no failing write repeats the same all-zero writes
      and leaves the fault state alone: `stop` is safe to call repeatedly. */
  method StopTwice(d: Drive)
    requires d.Valid() && d.phoenixAvailable
    modifies d
    ensures d.Valid()
    ensures d.writes == old(d.writes) + d.StopWrites() + d.StopWrites()
    ensures d.enabled == old(d.enabled) && d.warnings == old(d.warnings)
    ensures d.disableReason == old(d.disableReason) && d.disableReported == old(d.disableReported)
    ensures d.driveMotors == old(d.driveMotors) && d.steerMotors == old(d.steerMotors)
  {
    FirstFaultOfNoFaults([], 0, |d.StopWrites()|);
    d.Stop([]);
    d.Stop([]);
  }

  /** A robot without the vendor library: the subsystem comes up disabled
      with one fault report, and then neither drives, stops nor builds an
      autonomous routine. */
  method VendorLibraryMissing() returns (d: Drive, command: Command)
    ensures !d.enabled && d.disableReason == Some(PhoenixMissingMessage)
    ensures d.warnings == [FaultReport(PhoenixMissingMessage)] && d.writes == []
    ensures command == NoOpCommand
  {
    d := new Drive(false, [ModuleMissing, ModuleMissing, ModuleMissing],
                   [ModuleMissing, ModuleMissing, ModuleMissing], []);
    d.Drive(1.0, 0.0, 0.0, false, Raises("unreachable"), []);
    d.Stop([]);
    command := d.GetAutonomousCommand(Raises("unreachable"), Raises("unreachable"), Returns(NothingReturned));
  }

  /** The built-in path writes, on a fully initialised subsystem, module i's
      mixed output to its drive motor as write i and the steer output to its
      steer motor as write 4 + i; every output lies in [-1, 1]. */
  lemma BuiltInWritesLayout(d: Drive, xDisplacement: real, yDisplacement: real, rotation: real)
    requires d.HardwareReady()
    ensures var ws := d.BuiltInWrites(xDisplacement, yDisplacement, rotation);
      && |ws| == 2 * |Modules|
      && (forall i :: 0 <= i < |Modules| ==>
            && ws[i] == MotorWrite(DriveMotor, Handle(DriveMotor, Modules[i]), DriveOutputs(xDisplacement, yDisplacement, rotation)[i])
            && ws[|Modules| + i] == MotorWrite(SteerMotor, Handle(SteerMotor, Modules[i]), SteerOutput(rotation)))
      && forall w :: w in ws ==> -1.0 <= w.output <= 1.0
  {
  }

  /** `stop` writes zero to every motor the subsystem holds, the drive
      motors first, each exactly once, in the order they are held. */
  lemma StopWritesLayout(d: Drive)
    ensures var ws := d.StopWrites();
      && |ws| == |d.driveMotors| + |d.steerMotors|
      && (forall i :: 0 <= i < |d.driveMotors| ==> ws[i] == MotorWrite(DriveMotor, d.driveMotors[i], 0.0))
      && (forall i :: 0 <= i < |d.steerMotors| ==>
            ws[|d.driveMotors| + i] == MotorWrite(SteerMotor, d.steerMotors[i], 0.0))
  {
  }

  /** Half forward intent on a fully initialised subsystem: a quarter of full
      power to drive motors 1 to 4, zero to steer motors 11 to 14. */
  lemma HalfForwardWrites(d: Drive)
    requires d.HardwareReady()
    ensures d.BuiltInWrites(0.5, 0.0, 0.0) == [
      MotorWrite(DriveMotor, TalonFX(1, "rio"), 0.25), MotorWrite(DriveMotor, TalonFX(2, "rio"), 0.25),
      MotorWrite(DriveMotor, TalonFX(3, "rio"), 0.25), MotorWrite(DriveMotor, TalonFX(4, "rio"), 0.25),
      MotorWrite(SteerMotor, TalonFX(11, "rio"), 0.0), MotorWrite(SteerMotor, TalonFX(12, "rio"), 0.0),
      MotorWrite(SteerMotor, TalonFX(13, "rio"), 0.0), MotorWrite(SteerMotor, TalonFX(14, "rio"), 0.0)]
  {
    BringUpExamples();
  }

  /** The bring-up configuration of the repository: vendor library present,
      no generated drivetrain, the stub autonomous builder (which returns
      nothing) at its first location, and every handle and write succeeding.
      Half forward intent drives all four modules at a quarter of full
      power, leaves the steer motors still, and autonomous mode falls back
      to the stop command with one warning. */
  method BringUpScenario() returns (d: Drive, command: Command)
    ensures d.enabled && d.HardwareReady()
    ensures d.writes == [
      MotorWrite(DriveMotor, TalonFX(1, "rio"), 0.25), MotorWrite(DriveMotor, TalonFX(2, "rio"), 0.25),
      MotorWrite(DriveMotor, TalonFX(3, "rio"), 0.25), MotorWrite(DriveMotor, TalonFX(4, "rio"), 0.25),
      MotorWrite(SteerMotor, TalonFX(11, "rio"), 0.0), MotorWrite(SteerMotor, TalonFX(12, "rio"), 0.0),
      MotorWrite(SteerMotor, TalonFX(13, "rio"), 0.0), MotorWrite(SteerMotor, TalonFX(14, "rio"), 0.0)]
    ensures command == StopCommand && d.warnings == [Advisory(NoAutonomousSourceMessage)]
  {
    FirstFaultOfNoFaults([], 0, 2 * |Modules|);
    d := new Drive(true, [Resolved(Callable), ModuleMissing, ModuleMissing],
                   [ModuleMissing, ModuleMissing, ModuleMissing], []);
    assert d.enabled && d.HardwareReady() && d.writes == [] && d.warnings == [];
    assert d.tunerDrivetrain == None && d.autonomousFactory.Some?;
    HalfForwardWrites(d);
    d.Drive(0.5, 0.0, 0.0, delegate := Raises("unreachable"), outcomes := []);
    assert d.enabled && d.warnings == [];
    command := d.GetAutonomousCommand(Raises("unreachable"), Returns(NothingReturned), Raises("unreachable"));
  }
}
