/**
 * Fixed configuration of the robot: the CAN identifiers of the four swerve
 * modules, the bus they share, the operator-input shaping constants of the
 * drive subsystem, and the payload shape expected from the QuestNav headset.
 */
module Constants {

  /** The pair of CAN identifiers of one swerve module. A datatype value is
      immutable, as the frozen record of the source is. */
  datatype SwerveModuleCanIds = SwerveModuleCanIds(driveMotorId: int, steerMotorId: int)

  const FrontLeft := SwerveModuleCanIds(1, 11)
  const FrontRight := SwerveModuleCanIds(2, 12)
  const BackLeft := SwerveModuleCanIds(3, 13)
  const BackRight := SwerveModuleCanIds(4, 14)

  /** Module order matters: it fixes which mixed output each drive motor receives. */
  const Modules: seq<SwerveModuleCanIds> := [FrontLeft, FrontRight, BackLeft, BackRight]

  const CanbusName: string := "rio"

  const TranslationDeadband: real := 0.08
  const RotationDeadband: real := 0.08

  /** Percent-output scaling used during open-loop bring-up. */
  const MaxTranslationOutput: real := 0.5
  const MaxRotationOutput: real := 0.4

  const QuestNavInputTable: string := "questnav"
  const QuestNavOutputTable: string := "AdvantageScope/QuestNav"

  const StaleTimeoutS: real := 0.25

  const PositionLen: nat := 3
  const EulerLen: nat := 3
  const QuatLen: nat := 4

  /** Every CAN identifier in use, drive motors first, in module order. */
  function AllCanIds(): (ids: seq<int>)
    ensures |ids| == 2 * |Modules|
    ensures forall i :: 0 <= i < |Modules| ==>
      ids[i] == Modules[i].driveMotorId && ids[|Modules| + i] == Modules[i].steerMotorId
  {
    seq(|Modules|, i requires 0 <= i < |Modules| => Modules[i].driveMotorId)
    + seq(|Modules|, i requires 0 <= i < |Modules| => Modules[i].steerMotorId)
  }

  /** Four modules: front-left, front-right, back-left, back-right, all on
      the roboRIO's own bus. */
  lemma ModuleOrder()
    ensures |Modules| == 4 && CanbusName == "rio"
    ensures Modules[0] == FrontLeft && Modules[1] == FrontRight
    ensures Modules[2] == BackLeft && Modules[3] == BackRight
  {
  }

  /** Drive motors are numbered 1..4 and steer motors 11..14, in module order. */
  lemma CanIdLayout()
    ensures forall i :: 0 <= i < |Modules| ==>
      Modules[i].driveMotorId == i + 1 && Modules[i].steerMotorId == i + 11
  {
  }

  /** No two of the eight motor controllers share a CAN identifier. */
  lemma CanIdsDistinct()
    ensures forall i, j :: 0 <= i < j < |AllCanIds()| ==> AllCanIds()[i] != AllCanIds()[j]
  {
    CanIdLayout();
  }

  /** Both deadbands are 0.08, and both output scales are fractions of full power. */
  lemma InputShaping()
    ensures TranslationDeadband == RotationDeadband == 0.08
    ensures 0.0 < MaxTranslationOutput <= 1.0 && 0.0 < MaxRotationOutput <= 1.0
    ensures MaxTranslationOutput == 0.5 && MaxRotationOutput == 0.4
  {
  }

  /** Position and Euler angles have three components, the quaternion four;
      samples older than a quarter second are stale. */
  lemma PayloadShape()
    ensures PositionLen == 3 && EulerLen == 3 && QuatLen == 4
    ensures StaleTimeoutS == 0.25
  {
  }
}
