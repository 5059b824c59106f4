/**
 * The open-loop bring-up mixer of the drive subsystem: each operator axis
 * goes through a deadband, is scaled to a fraction of full power, and the
 * three axes are combined into four clamped per-module duty cycles. This is
 * a wiring and sign-convention check, not swerve kinematics.
 */
module Mixer {
  import opened Constants

  function Abs(v: real): (a: real)
    ensures a >= 0.0 && (a == v || a == -v)
  {
    if v < 0.0 then -v else v
  }

  /** A value whose magnitude is strictly below the deadband becomes zero; any
      other value, including one exactly at the threshold, passes unchanged. */
  function ApplyDeadband(value: real, deadband: real): (r: real)
    ensures r == 0.0 || r == value
    ensures r != 0.0 ==> Abs(r) >= deadband
    ensures Abs(value) >= deadband ==> r == value
  {
    if Abs(value) < deadband then 0.0 else value
  }

  /** Limits a duty cycle to [-1, 1], leaving values inside that range alone. */
  function Clamp(value: real): (r: real)
    ensures -1.0 <= r <= 1.0
    ensures -1.0 <= value <= 1.0 ==> r == value
    ensures value > 1.0 ==> r == 1.0
    ensures value < -1.0 ==> r == -1.0
  {
    if value > 1.0 then 1.0 else if value < -1.0 then -1.0 else value
  }

  /** A translation axis after deadband and scaling by the translation
      output scale, written out as 0.5 so that every use stays linear;
      ScalesAreConfigured ties it to the configuration. */
  function ShapeTranslation(v: real): real
  {
    ApplyDeadband(v, TranslationDeadband) * 0.5
  }

  /** The rotation axis after deadband and scaling by the rotation output
      scale, written out as 0.4. */
  function ShapeRotation(v: real): real
  {
    ApplyDeadband(v, RotationDeadband) * 0.4
  }

  /** The shaping uses the configured output scales. */
  lemma ScalesAreConfigured(v: real)
    ensures ShapeTranslation(v) == ApplyDeadband(v, TranslationDeadband) * MaxTranslationOutput
    ensures ShapeRotation(v) == ApplyDeadband(v, RotationDeadband) * MaxRotationOutput
  {
  }

  /** The four-way mix of already shaped axes, in module order
      (front-left, front-right, back-left, back-right), each output clamped. */
  function Mix(x: real, y: real, omega: real): (outputs: seq<real>)
    ensures |outputs| == |Modules|
    ensures forall i :: 0 <= i < |outputs| ==> -1.0 <= outputs[i] <= 1.0
  {
    [Clamp(x + y + omega), Clamp(x - y - omega), Clamp(x - y + omega), Clamp(x + y - omega)]
  }

  /** The duty cycles the built-in path writes to the drive motors. */
  function DriveOutputs(xDisplacement: real, yDisplacement: real, rotation: real): (outputs: seq<real>)
    ensures |outputs| == |Modules|
    ensures forall i :: 0 <= i < |outputs| ==> -1.0 <= outputs[i] <= 1.0
  {
    Mix(ShapeTranslation(xDisplacement), ShapeTranslation(yDisplacement), ShapeRotation(rotation))
  }

  /** The single duty cycle the built-in path writes to every steer motor. */
  function SteerOutput(rotation: real): (output: real)
    ensures -1.0 <= output <= 1.0
  {
    Clamp(ShapeRotation(rotation))
  }

  /** Clamping twice is clamping once. */
  lemma ClampIdempotent(v: real)
    ensures Clamp(Clamp(v)) == Clamp(v)
  {
  }

  /** Applying the same deadband twice is applying it once. */
  lemma DeadbandIdempotent(v: real, deadband: real)
    ensures ApplyDeadband(ApplyDeadband(v, deadband), deadband) == ApplyDeadband(v, deadband)
  {
  }

  /** Written out with the configured constants: a deadband of 0.08 on every
      axis, translation scaled by 0.5, rotation by 0.4, and the fixed sign table. */
  lemma DriveOutputsExplicit(xDisplacement: real, yDisplacement: real, rotation: real)
    ensures var x := if Abs(xDisplacement) < 0.08 then 0.0 else 0.5 * xDisplacement;
            var y := if Abs(yDisplacement) < 0.08 then 0.0 else 0.5 * yDisplacement;
            var w := if Abs(rotation) < 0.08 then 0.0 else 0.4 * rotation;
            DriveOutputs(xDisplacement, yDisplacement, rotation)
              == [Clamp(x + y + w), Clamp(x - y - w), Clamp(x - y + w), Clamp(x + y - w)]
            && SteerOutput(rotation) == Clamp(w)
  {
  }

  /** Inputs inside the deadband on every axis command no motion at all. */
  lemma InsideDeadbandIsStill(xDisplacement: real, yDisplacement: real, rotation: real)
    requires Abs(xDisplacement) < TranslationDeadband && Abs(yDisplacement) < TranslationDeadband
    requires Abs(rotation) < RotationDeadband
    ensures DriveOutputs(xDisplacement, yDisplacement, rotation) == [0.0, 0.0, 0.0, 0.0]
    ensures SteerOutput(rotation) == 0.0
  {
  }

  /** Reversing the rotation exchanges the diagonal modules: the outputs come
      out in reverse module order. */
  lemma RotationReversalMirrors(xDisplacement: real, yDisplacement: real, rotation: real)
    ensures var o := DriveOutputs(xDisplacement, yDisplacement, rotation);
            DriveOutputs(xDisplacement, yDisplacement, -rotation) == [o[3], o[2], o[1], o[0]]
    ensures SteerOutput(-rotation) == -SteerOutput(rotation)
  {
    assert ShapeRotation(-rotation) == -ShapeRotation(rotation);
  }

  /** Full forward intent drives every module at half power; full rotation
      intent drives the left modules forward and the right ones backward at 0.4,
      and every steer motor at 0.4. */
  lemma BringUpExamples()
    ensures DriveOutputs(1.0, 0.0, 0.0) == [0.5, 0.5, 0.5, 0.5] && SteerOutput(0.0) == 0.0
    ensures DriveOutputs(0.5, 0.0, 0.0) == [0.25, 0.25, 0.25, 0.25]
    ensures DriveOutputs(0.0, 0.0, 1.0) == [0.4, -0.4, 0.4, -0.4] && SteerOutput(1.0) == 0.4
  {
  }

  /** Saturating intent on all axes still yields outputs in [-1, 1]; with full
      forward, full left and full rotation the front-left module saturates. */
  lemma SaturatingExample()
    ensures DriveOutputs(1.0, 1.0, 1.0) == [1.0, -0.4, 0.4, 0.6]
  {
  }
}
