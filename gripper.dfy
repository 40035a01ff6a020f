/** The Delta6 gripper controller: a mode, an enable flag reconciled on every
    tick of the real-time loop, clamped targets, and the mapping between the
    jaw opening in millimetres and the servo angle. The servo is the driver
    object of module Servo, whose packet log records every command. */
module Gripper {
  import opened Wrappers
  import opened Servo

  /** The jaw opening at the calibrated far end, in millimetres. */
  const MaxWidth: real := 31.5

  /** The modes `set_mode` accepts; anything else becomes "pos". */
  function NormalizeMode(mode: string): (r: string)
    ensures r == "pos" || r == "torque" || r == "disable"
    ensures mode == "pos" || mode == "torque" || mode == "disable" <==> r == mode
  {
    if mode == "pos" || mode == "torque" || mode == "disable" then mode else "pos"
  }

  /** `max(min(angle, hi), lo)`: `set_angle`'s clamp, in that order, so that
      an empty range (lo > hi) yields lo. */
  function ClampAngle(angle: real, lo: real, hi: real): (r: real)
    ensures lo <= hi ==> lo <= r <= hi
    ensures lo <= angle <= hi ==> r == angle
    ensures hi < lo ==> r == lo
  {
    var upper := if angle < hi then angle else hi;
    if upper < lo then lo else upper
  }

  /** `max(min(torque, 1000), -1000)`. */
  function ClampTorque(torque: int): (r: int)
    ensures -1000 <= r <= 1000
    ensures -1000 <= torque <= 1000 ==> r == torque
    ensures torque > 1000 ==> r == 1000
    ensures torque < -1000 ==> r == -1000
  {
    var upper := if torque < 1000 then torque else 1000;
    if upper < -1000 then -1000 else upper
  }

  /** `max(0, min(pos, max_width))`. */
  function ClampWidth(pos: real): (r: real)
    ensures 0.0 <= r <= MaxWidth
    ensures 0.0 <= pos <= MaxWidth ==> r == pos
  {
    var upper := if pos < MaxWidth then pos else MaxWidth;
    if upper < 0.0 then 0.0 else upper
  }

  /** `set_pos`'s conversion of an opening to a servo angle, for a range whose
      far end is `maxAngle`. */
  function AngleOfPosition(pos: real, maxAngle: real): (angle: real)
    requires maxAngle > 0.0
    ensures angle * MaxWidth == ClampWidth(pos) * maxAngle
  {
    (ClampWidth(pos) / MaxWidth) * maxAngle
  }

  /** `get_current_pos`'s conversion of a servo angle to an opening. */
  function PositionOfAngle(angle: real, maxAngle: real): (pos: real)
    requires maxAngle > 0.0
    ensures 0.0 <= pos <= MaxWidth
    ensures 0.0 <= angle <= maxAngle ==> pos * maxAngle == angle * MaxWidth
  {
    ClampWidth((angle / maxAngle) * MaxWidth)
  }

  /** The angle `set_pos` computes lies between 0 and the far end. */
  lemma AngleOfPositionRange(pos: real, maxAngle: real)
    requires maxAngle > 0.0
    ensures 0.0 <= AngleOfPosition(pos, maxAngle) <= maxAngle
  {
    var f := ClampWidth(pos) / MaxWidth;
    assert 0.0 <= f <= 1.0;
    assert 0.0 <= f * maxAngle;
    assert (1.0 - f) * maxAngle >= 0.0;
    assert f * maxAngle == maxAngle - (1.0 - f) * maxAngle;
  }

  /** Once the servo reaches the angle `set_pos` chose, `get_current_pos`
      reports the requested opening, clamped to [0, max_width]; this holds
      whenever the range starts at or below 0, as calibration leaves it. */
  lemma PositionRoundTrip(pos: real, minAngle: real, maxAngle: real)
    requires minAngle <= 0.0 < maxAngle
    ensures PositionOfAngle(ClampAngle(AngleOfPosition(pos, maxAngle), minAngle, maxAngle), maxAngle)
         == ClampWidth(pos)
  {
    AngleOfPositionRange(pos, maxAngle);
    var angle := AngleOfPosition(pos, maxAngle);
    assert ClampAngle(angle, minAngle, maxAngle) == angle;
    var f := ClampWidth(pos) / MaxWidth;
    assert angle / maxAngle == f;
    assert f * MaxWidth == ClampWidth(pos);
  }

  /** The packets `set_mode` sends for an accepted mode. */
  function SetModePackets(motor: int, mode: string): seq<Packet>
  {
    if mode == "pos" then [MaxTorquePacket(motor, 500), ModePacket(motor, PositionMode)] + EnablePackets(motor)
    else if mode == "disable" then [ModePacket(motor, TorqueMode)] + DisablePackets(motor)
    else [ModePacket(motor, TorqueMode)] + EnablePackets(motor)
  }

  /** The torque enable or disable command of `loop`'s reconciliation step. */
  function ReconcilePackets(motor: int, toSetEnable: bool, enabled: bool): (r: seq<Packet>)
    ensures r == [] <==> toSetEnable == enabled
    ensures r != [] ==> r[|r| - 1] == RegisterWrite(motor, TorqueEnableAddr, 1, if toSetEnable then 1 else 0)
  {
    if toSetEnable == enabled then [] else if toSetEnable then EnablePackets(motor) else DisablePackets(motor)
  }

  /** The command `loop` sends to an enabled servo in a mode, given the
      servo's remembered control mode. */
  function CommandPackets(motor: int, mode: string, controlMode: int, angle: real, torque: int): (r: seq<Packet>)
    ensures mode != "pos" && mode != "torque" && mode != "disable" ==> r == []
    ensures mode == "torque" || mode == "disable" ==>
              && |r| > 0 && r[|r| - 1] == TorquePacket(motor, torque as real)
              && (ModePacket(motor, TorqueMode) in r <==> controlMode != TorqueMode)
    ensures mode == "pos" ==>
              && (ModePacket(motor, PositionMode) in r <==> controlMode != PositionMode)
              && (-180.0 <= angle <= 180.0 ==>
                    |r| > 0 && r[|r| - 1] == RegisterWrite(motor, GoalPositionAddr, 2, RawPosition(angle)))
  {
    if mode == "pos" then ModeSwitch(motor, controlMode, PositionMode) + GoalPackets(motor, angle)
    else if mode == "torque" || mode == "disable" then
      ModeSwitch(motor, controlMode, TorqueMode) + [TorquePacket(motor, torque as real)]
    else []
  }

  /** The configuration packets of `calibration`, the stall searches aside:
      position mode, a torque limit of 500, enable, reset the zero at the
      closed end, disable, and the full torque limit. */
  function CalibrationPackets(motor: int): seq<Packet>
  {
    [ModePacket(motor, PositionMode), MaxTorquePacket(motor, 500)]
    + EnablePackets(motor)
    + [RegisterWrite(motor, TorqueEnableAddr, 1, 128)]
    + DisablePackets(motor)
    + [MaxTorquePacket(motor, 1000)]
  }

  /** The control mode the servo is left in by `CommandPackets`. */
  function CommandMode(mode: string, controlMode: int): int
  {
    if mode == "pos" then PositionMode
    else if mode == "torque" || mode == "disable" then TorqueMode
    else controlMode
  }

  class Delta6GripperController {
    const motorId: int
    const motor: STS3032
    var targetMotorAngle: real
    var currentMotorAngle: real
    /** Between -1000 and +1000. */
    var targetMotorTorque: int
    var currentMotorLoad: real
    const maxWidth: real := MaxWidth
    /** The calibrated (minimum, maximum) servo angle. */
    var angleRange: (real, real)
    var enabled: bool
    var toSetEnable: bool
    var mode: string

    /** `__init__`: the mode is stored as given; `setup` normalises it. */
    constructor (motorId: int, mode: string)
      ensures this.motorId == motorId && this.mode == mode
      ensures targetMotorAngle == 0.0 && currentMotorAngle == 0.0 && targetMotorTorque == 0
      ensures currentMotorLoad == 0.0 && angleRange == (0.0, 0.0)
      ensures !enabled && !toSetEnable
      ensures fresh(motor) && motor.controlMode == PositionMode && motor.sent == []
    {
      this.motorId := motorId;
      motor := new STS3032();
      targetMotorAngle := 0.0;
      currentMotorAngle := 0.0;
      targetMotorTorque := 0;
      currentMotorLoad := 0.0;
      angleRange := (0.0, 0.0);
      enabled := false;
      toSetEnable := false;
      this.mode := mode;
    }

    /** One tick of the real-time loop: take the angle the servo reports,
        bring `enabled` in line with `to_set_enable`, then command the target
        of the current mode. `read` is the servo's answer to register reads. */
    method Loop(read: WordReader)
      modifies this, motor
      ensures var reading := ReadAngle(read, motorId).angle;
              currentMotorAngle == if reading.Some? then reading.value else old(currentMotorAngle)
      ensures enabled == toSetEnable == old(toSetEnable)
      ensures motor.sent == old(motor.sent)
                            + ReconcilePackets(motorId, old(toSetEnable), old(enabled))
                            + (if enabled then CommandPackets(motorId, mode, old(motor.controlMode),
                                                              targetMotorAngle, targetMotorTorque)
                               else [])
      ensures motor.controlMode == if enabled then CommandMode(mode, old(motor.controlMode)) else old(motor.controlMode)
      ensures mode == old(mode) && targetMotorAngle == old(targetMotorAngle)
      ensures targetMotorTorque == old(targetMotorTorque) && angleRange == old(angleRange)
      ensures currentMotorLoad == old(currentMotorLoad)
    {
      var reading := ReadAngle(read, motorId);
      if reading.angle != None {
        currentMotorAngle := reading.angle.value;
      }
      ghost var sent0, mode0 := motor.sent, motor.controlMode;
      if toSetEnable != enabled {
        if toSetEnable {
          motor.EnableTorque(motorId);
          enabled := true;
        } else {
          motor.DisableTorque(motorId);
          enabled := false;
        }
      }
      assert motor.sent == sent0 + ReconcilePackets(motorId, old(toSetEnable), old(enabled));
      assert motor.controlMode == mode0;
      if enabled == true {
        SendCommand();
      }
    }

    /** The mode-dependent command of `loop` to an enabled servo; an unknown
        mode sends nothing. */
    method SendCommand()
      modifies motor
      ensures motor.sent == old(motor.sent) + CommandPackets(motorId, mode, old(motor.controlMode),
                                                             targetMotorAngle, targetMotorTorque)
      ensures motor.controlMode == CommandMode(mode, old(motor.controlMode))
    {
      if mode == "pos" {
        var _ := motor.WriteAngle(motorId, targetMotorAngle);
      } else if mode == "torque" {
        motor.WriteTorque(motorId, targetMotorTorque as real);
      } else if mode == "disable" {
        motor.WriteTorque(motorId, targetMotorTorque as real);
      }
    }

    /** `set_enable`. */
    method SetEnable()
      modifies this`toSetEnable
      ensures toSetEnable
    {
      toSetEnable := true;
    }

    /** `set_disable`. */
    method SetDisable()
      modifies this`toSetEnable
      ensures !toSetEnable
    {
      toSetEnable := false;
    }

    /** `set_mode`: an unsupported mode becomes "pos"; the servo is configured
        for the mode and both enable flags are set at once. */
    method SetMode(newMode: string)
      modifies this`mode, this`toSetEnable, this`enabled, motor
      ensures mode == NormalizeMode(newMode)
      ensures enabled == toSetEnable
      ensures !enabled <==> mode == "disable"
      ensures motor.controlMode == if mode == "pos" then PositionMode else TorqueMode
      ensures motor.sent == old(motor.sent) + SetModePackets(motorId, mode)
    {
      var m := newMode;
      if !(m == "pos" || m == "torque" || m == "disable") {
        m := "pos";
      }
      mode := m;
      if mode == "pos" {
        var _ := motor.SetMaxTorque(motorId, 500);
        var _ := motor.SetControlMode(motorId, PositionMode);
        motor.EnableTorque(motorId);
        toSetEnable := true;
        enabled := true;
      } else if mode == "disable" {
        var _ := motor.SetControlMode(motorId, TorqueMode);
        motor.DisableTorque(motorId);
        toSetEnable := false;
        enabled := false;
      } else {
        var _ := motor.SetControlMode(motorId, TorqueMode);
        motor.EnableTorque(motorId);
        toSetEnable := true;
        enabled := true;
      }
    }

    /** `set_angle`: the target is clamped into `angle_range`. */
    method SetAngle(angle: real)
      modifies this`targetMotorAngle
      ensures targetMotorAngle == ClampAngle(angle, angleRange.0, angleRange.1)
      ensures angleRange.0 <= angleRange.1 ==> angleRange.0 <= targetMotorAngle <= angleRange.1
    {
      var (minAngle, maxAngle) := angleRange;
      var clamped := ClampAngle(angle, minAngle, maxAngle);
      targetMotorAngle := clamped;
    }

    /** `set_torque`: the target is clamped into [-1000, 1000]. */
    method SetTorque(torque: int)
      modifies this`targetMotorTorque
      ensures targetMotorTorque == ClampTorque(torque)
      ensures -1000 <= targetMotorTorque <= 1000
    {
      targetMotorTorque := ClampTorque(torque);
    }

    /** `get_current_pos`: the present opening in millimetres, 0 before
        calibration. */
    function GetCurrentPos(): (r: real)
      reads this
      ensures angleRange.1 <= 0.0 ==> r == 0.0
      ensures 0.0 <= r <= maxWidth
    {
      var (_, maxAngle) := angleRange;
      if maxAngle <= 0.0 then 0.0
      else PositionOfAngle(currentMotorAngle, maxAngle)
    }

    /** `set_pos`: ignored before calibration; otherwise the opening, clamped
        to [0, max_width], becomes a target angle inside the range. */
    method SetPos(pos: real)
      modifies this`targetMotorAngle
      ensures angleRange.1 <= 0.0 ==> targetMotorAngle == old(targetMotorAngle)
      ensures angleRange.1 > 0.0 ==>
                targetMotorAngle == ClampAngle(AngleOfPosition(pos, angleRange.1), angleRange.0, angleRange.1)
      ensures angleRange.0 <= 0.0 < angleRange.1 ==>
                0.0 <= targetMotorAngle <= angleRange.1 && PositionOfAngle(targetMotorAngle, angleRange.1) == ClampWidth(pos)
    {
      var clamped := ClampWidth(pos);
      var (_, maxAngle) := angleRange;
      if maxAngle <= 0.0 {
        return;
      }
      var angle := (clamped / maxWidth) * maxAngle;
      assert angle == AngleOfPosition(pos, maxAngle);
      SetAngle(angle);
      if angleRange.0 <= 0.0 {
        PositionRoundTrip(pos, angleRange.0, maxAngle);
        AngleOfPositionRange(pos, maxAngle);
      }
    }

    /** `calibration` with the stall searches abstracted: `farAngle` is the
        angle at which the jaw stalled when opening, measured after the
        closed end was made the zero. */
    method Calibration(farAngle: real)
      modifies this`angleRange, this`targetMotorAngle, motor
      ensures angleRange == (0.0, if farAngle < 0.0 then -farAngle else farAngle)
      ensures targetMotorAngle == angleRange.1
      ensures motor.controlMode == PositionMode
      ensures motor.sent == old(motor.sent) + CalibrationPackets(motorId)
    {
      var _ := motor.SetControlMode(motorId, PositionMode);
      var _ := motor.SetMaxTorque(motorId, 500);
      motor.EnableTorque(motorId);
      motor.ResetZero(motorId);
      motor.DisableTorque(motorId);
      var _ := motor.SetMaxTorque(motorId, 1000);
      var far := if farAngle < 0.0 then -farAngle else farAngle;
      angleRange := (0.0, far);
      SetAngle(far);
    }

    /** `setup`: calibrate, then apply the constructor's mode. */
    method Setup(farAngle: real)
      modifies this`angleRange, this`targetMotorAngle, this`mode, this`toSetEnable, this`enabled, motor
      ensures angleRange == (0.0, if farAngle < 0.0 then -farAngle else farAngle)
      ensures targetMotorAngle == angleRange.1
      ensures mode == NormalizeMode(old(mode)) && enabled == toSetEnable
      ensures !enabled <==> mode == "disable"
      ensures motor.controlMode == if mode == "pos" then PositionMode else TorqueMode
      ensures motor.sent == old(motor.sent) + CalibrationPackets(motorId) + SetModePackets(motorId, mode)
    {
      Calibration(farAngle);
      SetMode(mode);
    }
  }
}
