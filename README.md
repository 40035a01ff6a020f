# Delta6 in Dafny

A model of the logic of the Delta6 parallel manipulator. The model has four modules:

- **Firmware** (`firmware.dfy`) is the sensor board's firmware:
  - a three-state framer for host commands (start byte 0xAA, command, checksum);
  - the 8-bit additive checksum;
  - the 15-byte read response, with six offset-corrected `int16` values sent as big-endian words, then the error bitmask and the checksum;
  - the error bitmask, which accumulates between reads;
  - calibration offsets kept in EEPROM.

  The class `SensorBoard` holds the firmware's globals in arrays and fields. Its methods are proved equal to pure functions on a `Board` value. Lemmas about those functions state the protocol's properties.
- **Servo** (`servo.dfy`) is the STS3032 servo driver:
  - argument validation, with each `ValueError` returned as a failure value;
  - the remembered control mode and the automatic mode switch before angle and torque writes;
  - the sign-magnitude torque word and the little-endian byte split;
  - the load-word bit decoding and the scaling between angles and raw positions.

  Writes are appended to a packet log. Reads come from a function supplied by the caller.
- **Gripper** (`gripper.dfy`) is the gripper controller:
  - the mode setter;
  - the enable reconciliation and command dispatch of the real-time loop;
  - the clamping setters;
  - the mapping between the jaw opening in millimetres and the servo angle;
  - the final assignments of calibration.

  It drives a `Servo.STS3032` object, so every servo command shows up in that object's packet log.
- **Kinematics** (`kinematics.dfy`) is the exact-arithmetic skeleton of the kinematics engine:
  - the joint-angle and torque state with its spring law;
  - the torque-to-angle inversion;
  - the coordinate remaps and angle offsets of forward and inverse kinematics;
  - the failure propagation of inverse kinematics;
  - the change of frame of a wrench.

  Trigonometry, square roots, scipy's Euler conversions and `fsolve` enter as the function fields of a `Numerics` value.

`wrappers.dfy` defines `Option`, `Result` and `Outcome`.

The model makes these modelling choices:

- Integers are unbounded, and the source's fixed widths are written out explicitly:
  - the `int16_t` cast wraps into [-32768, 32767];
  - the 8-bit checksum accumulator is reduced modulo 256;
  - `errorFlags` is a `bv8`.
- Python's `int()` truncates toward zero, which `Servo.Trunc` models.
- Python's `>>` and `&` on non-negative masks are floor division and the Euclidean remainder.
- Floating-point values are modelled as exact reals.

## Model

| member | source | states |
|---|---|---|
| Firmware.CalculateChecksum | firmware/src/main.cpp:87-93 | the 8-bit accumulator loop returns the sum of the bytes modulo 256 |
| Firmware.Checksum | firmware/src/main.cpp:87-93 | the checksum is congruent to the byte sum modulo 256 |
| Firmware.SingleByteChecksum | firmware/src/main.cpp:70-71 | the checksum of a one-byte payload is that byte, so a frame is accepted exactly when its checksum byte equals its command byte |
| Firmware.ByteSumUpdate | firmware/src/main.cpp:87-93 | replacing one byte changes the byte sum by the difference of the old and new byte |
| Firmware.Int16 | firmware/src/main.cpp:120 | the `int16_t` cast lands in [-32768, 32767] and leaves values that fit unchanged |
| Firmware.Int16Wraps | firmware/src/main.cpp:120 | the cast preserves the value modulo 2^16 |
| Firmware.HighByte | firmware/src/main.cpp:121 | `(v >> 8) & 0xFF` of an int16 is the high byte of its 16-bit two's-complement pattern |
| Firmware.LowByte | firmware/src/main.cpp:122 | `v & 0xFF` of an int16 is the low byte of its 16-bit two's-complement pattern |
| Firmware.WordRoundTrip | firmware/src/main.cpp:121-122 | the high byte `(v >> 8) & 0xFF` and low byte `v & 0xFF` of an int16, read as a big-endian two's-complement word, give back v |
| Firmware.ReadPacket | firmware/src/main.cpp:114-130 | the response is 15 bytes and starts with 0xAA |
| Firmware.DecodePacket | firmware/src/main.cpp:114-130 | the reference host decoder accepts a packet exactly when it has 15 bytes, the start byte 0xAA and a last byte equal to the checksum of bytes 1..13; it then yields six values in int16 range and byte 13 as the flags |
| Firmware.ReadPacketLayout | firmware/src/main.cpp:116-130 | bytes 1+2i and 2+2i are the high and low bytes of sensor i's offset-corrected value, byte 13 is the flag byte, and byte 14 is the checksum of bytes 1..13 |
| Firmware.DecodeWords | firmware/src/main.cpp:119-123 | a framed packet whose words are the big-endian bytes of six int16 values decodes to exactly those values |
| Firmware.PacketRoundTrip | firmware/src/main.cpp:114-133 | decoding a read response recovers every `int16(position - offset)` and the error flags |
| Firmware.SingleByteErrorDetected | firmware/src/main.cpp:128-130 | changing any single byte among bytes 1..13 of a valid response makes it fail the checksum |
| Firmware.OrBit | firmware/src/main.cpp:144 | `flags \| (1 << i)` sets bit i and leaves every other bit as it was |
| Firmware.RaiseFlagsBits | firmware/src/main.cpp:141-149 | after the first n sensors, bit j is set iff it was set before or sensor j < n read -1 |
| Firmware.RaiseFlagsAll | firmware/src/main.cpp:141-149 | after all six sensors, bit j is set iff it was set before or sensor j read -1, so no bit is ever cleared |
| Firmware.Zeros | firmware/src/main.cpp:16-17 | six zeros, the initial positions and offsets |
| Firmware.PowerOn | firmware/src/main.cpp:16-18 | the power-on state is well formed |
| Firmware.SetUp | firmware/src/main.cpp:31-33 | `setup` makes the calibration offsets the EEPROM contents, and the offsets are the only thing that changes |
| Firmware.Sanitized | firmware/src/main.cpp:143-148 | no stored position is the error value -1, and every good reading is stored as read |
| Firmware.Stored | firmware/src/main.cpp:100-106 | each EEPROM slot is either kept or the sensor's reading; a slot changes only for a sensor that read well, and every such sensor's slot holds its reading |
| Firmware.PositionsUpdated | firmware/src/main.cpp:140-150 | `updatePositions` keeps the board well formed |
| Firmware.PositionsUpdatedSpec | firmware/src/main.cpp:140-150 | a sensor reading -1 gets position 0 and raises its bit, others store their reading, other bits are kept, and offsets, EEPROM and framer are unchanged |
| Firmware.Calibrated | firmware/src/main.cpp:96-109 | `handleCalibration` keeps the board well formed |
| Firmware.CalibratedSpec | firmware/src/main.cpp:96-109 | a sensor reading -1 gets offset 0, raises its bit and keeps its EEPROM slot; others take the reading as offset and in EEPROM; positions and framer are unchanged |
| Firmware.CalibrationAfterRestart | firmware/src/main.cpp:31-33 | after calibrating and restarting, a sensor that read well has its reading as offset, and one that failed has the previously stored offset; this equals the running board's 0 exactly when the stored offset is 0 |
| Firmware.Read | firmware/src/main.cpp:112-137 | `handleRead` keeps the board well formed |
| Firmware.ReadSpec | firmware/src/main.cpp:112-137 | the response decodes and carries the flags as they were, and afterwards only the flags have changed, to 0 |
| Firmware.Execute | firmware/src/main.cpp:73-77 | commands other than 0x01 and 0x02 change nothing and send nothing, and only a read sends anything |
| Firmware.Feed | firmware/src/main.cpp:57-81 | one framer step keeps the board well formed |
| Firmware.FeedSpec | firmware/src/main.cpp:57-81 | in WAIT_START only 0xAA moves to READ_CMD and other bytes are dropped; the command byte is stored; the checksum byte always returns to WAIT_START; a mismatched checksum runs nothing; output comes only from a valid read command |
| Firmware.Process | firmware/src/main.cpp:50-84 | processing any input keeps the board well formed |
| Firmware.Step | firmware/src/main.cpp:55-57 | one more byte keeps the board well formed |
| Firmware.StepKeepsOutput | firmware/src/main.cpp:55-57 | a step appends to what was sent before and never alters it |
| Firmware.ProcessSnoc | firmware/src/main.cpp:55-57 | processing one more byte is one more step of the framer |
| Firmware.ProcessAppend | firmware/src/main.cpp:50-84 | processing two chunks of input in successive calls equals processing their concatenation, because the framer state carries over |
| Firmware.NoStartByteNoEffect | firmware/src/main.cpp:58-62 | from WAIT_START, input without 0xAA changes nothing and sends nothing |
| Firmware.FrameSteps | firmware/src/main.cpp:57-81 | a three-byte frame from WAIT_START is the checksum step after the start and command bytes |
| Firmware.ReadFrame | firmware/src/main.cpp:67-78 | the frame AA 02 02 sends the read response and clears the flags |
| Firmware.CalibrationFrame | firmware/src/main.cpp:67-78 | the frame AA 01 01 calibrates against the current readings and sends nothing |
| Firmware.IgnoredFrame | firmware/src/main.cpp:67-81 | a frame with a wrong checksum or an unknown command only updates the framer registers and sends nothing |
| Firmware.OutputIsWholePackets | firmware/src/main.cpp:50-84 | everything sent is a whole number of 15-byte packets |
| Firmware.SensorBoard.constructor | firmware/src/main.cpp:16-18 | globals zero, EEPROM as given |
| Firmware.SensorBoard.Setup | firmware/src/main.cpp:27-33 | the EEPROM loop leaves the board equal to `SetUp` of the old board |
| Firmware.SensorBoard.UpdatePositions | firmware/src/main.cpp:140-150 | the sensor loop leaves the board equal to `PositionsUpdated` of the old board |
| Firmware.SensorBoard.HandleCalibration | firmware/src/main.cpp:96-109 | the sensor loop with EEPROM writes leaves the board equal to `Calibrated` of the old board |
| Firmware.SensorBoard.HandleRead | firmware/src/main.cpp:112-137 | the `idx++` buffer fill sends `ReadPacket` of the current state and clears the flags |
| Firmware.SensorBoard.ProcessByte | firmware/src/main.cpp:56-82 | one loop iteration of `processSerial` is `Feed` |
| Firmware.SensorBoard.ProcessSerial | firmware/src/main.cpp:50-84 | the byte loop is `Process` of the old board over the input |
| Firmware.SensorBoard.Loop | firmware/src/main.cpp:43-47 | serving the host, then sampling, is `PositionsUpdated` after `Process` |
| Servo.Trunc | delta6_python_SDK/scservo_sdk/sts3023.py:90 | Python's `int()` truncates toward zero |
| Servo.Clamp | delta6_python_SDK/scservo_sdk/sts3023.py:143-144 | `max(lo, min(value, hi))` lies in [lo, hi] and is the value, lo or hi as the value lies inside, below or above |
| Servo.IntToByteArray | delta6_python_SDK/scservo_sdk/sts3023.py:174-175 | `length` bytes, each in [0, 255] |
| Servo.FromLittleEndian | delta6_python_SDK/scservo_sdk/sts3023.py:165-166 | `int.from_bytes(..., "little")` of n bytes lies in [0, 256^n) |
| Servo.IntToByteArrayCons | delta6_python_SDK/scservo_sdk/sts3023.py:174-175 | the first byte is the value mod 256 and the rest are the bytes of the value shifted right by 8 |
| Servo.ByteArrayRoundTrip | delta6_python_SDK/scservo_sdk/sts3023.py:174-175 | reading the bytes back little-endian gives the value modulo 256^length |
| Servo.WordRoundTrip | delta6_python_SDK/scservo_sdk/sts3023.py:174-175 | for 0 <= v < 65536 and two bytes, `lo + 256*hi == v` |
| Servo.RawPosition | delta6_python_SDK/scservo_sdk/sts3023.py:90 | for an angle of at least -180 the goal position is the floor of `(angle + 180) * 4095 / 360`, as `int()` truncates a non-negative value |
| Servo.AngleOfRaw | delta6_python_SDK/scservo_sdk/sts3023.py:62 | the angle read is the one whose scaled goal position `(angle + 180) * 4095 / 360` is exactly the raw value |
| Servo.RawPositionRange | delta6_python_SDK/scservo_sdk/sts3023.py:86-90 | an accepted angle in [-180, 180] gives a raw position in [0, 4095] |
| Servo.AngleOfRawRange | delta6_python_SDK/scservo_sdk/sts3023.py:62 | a raw position in [0, 4095] reads as an angle in [-180, 180] |
| Servo.RawAngleRoundTrip | delta6_python_SDK/scservo_sdk/sts3023.py:62 | writing back the angle read from a raw position gives the same raw position |
| Servo.AngleQuantization | delta6_python_SDK/scservo_sdk/sts3023.py:90 | the angle read back after writing an angle is at most one tick (360/4095 degree) below it, never above |
| Servo.MapTorque | delta6_python_SDK/scservo_sdk/sts3023.py:136-141 | non-negative values are sent unchanged and negative v as 1024+\|v\|, so a clamped torque lands in [0, 1000] or [1025, 2024] |
| Servo.LoadMagnitude | delta6_python_SDK/scservo_sdk/sts3023.py:108 | `raw & 0x3FF` lies in [0, 1023] |
| Servo.LoadDirection | delta6_python_SDK/scservo_sdk/sts3023.py:109 | the direction is -1 or 1 |
| Servo.TorqueWord | delta6_python_SDK/scservo_sdk/sts3023.py:146-148 | the encoded torque lies in [0, 1000] or [1025, 2024] |
| Servo.TorqueRoundTrip | delta6_python_SDK/scservo_sdk/sts3023.py:146-148 | decoding the torque word with the load scheme (`& 0x3FF`, `& 0x400`) recovers the clamped, truncated torque |
| Servo.TorqueBytes | delta6_python_SDK/scservo_sdk/sts3023.py:149-153 | the two torque bytes read back little-endian as the torque word |
| Servo.ReadRegister | delta6_python_SDK/scservo_sdk/sts3023.py:27-39 | only lengths 1, 2 and 4 read; others fail with the unsupported-length error |
| Servo.ReadAngle | delta6_python_SDK/scservo_sdk/sts3023.py:55-63 | no angle iff the read failed or returned nothing; a raw value in [0, 4095] gives an angle in [-180, 180] that writes back to the same raw value |
| Servo.ReadLoad | delta6_python_SDK/scservo_sdk/sts3023.py:100-110 | the magnitude is `raw mod 1024` in [0, 1023], the direction is -1 iff bit 0x400 is set and 1 iff not, and both are absent iff the read failed |
| Servo.Slice | delta6_python_SDK/scservo_sdk/sts3023.py:165-166 | Python slicing `s[lo:hi]`: `s[lo..hi]` within the sequence, `s[lo..]` when only hi lies past the end, empty when lo does |
| Servo.ReadPosAndLoad | delta6_python_SDK/scservo_sdk/sts3023.py:155-172 | the angle comes from bytes 0-1 little-endian, the signed load lies in [-1023, 1023], and both are absent iff the read failed |
| Servo.PosAndLoadAgree | delta6_python_SDK/scservo_sdk/sts3023.py:155-172 | when the single-word reads return the block read's words, the combined read gives `read_angle`'s angle and `direction * load` of `read_load` |
| Servo.STS3032.constructor | delta6_python_SDK/scservo_sdk/sts3023.py:12 | control mode 0, nothing sent |
| Servo.STS3032.WriteRegister | delta6_python_SDK/scservo_sdk/sts3023.py:17-25 | lengths 1, 2 and 4 write one register packet; any other length fails without writing |
| Servo.STS3032.EnableTorque | delta6_python_SDK/scservo_sdk/sts3023.py:41-49 | sends velocity 2000, acceleration 200, time 0, then torque enable 1 |
| Servo.STS3032.DisableTorque | delta6_python_SDK/scservo_sdk/sts3023.py:51-53 | sends torque enable 0 |
| Servo.STS3032.ResetZero | delta6_python_SDK/scservo_sdk/sts3023.py:112-114 | sends 128 to the torque enable register |
| Servo.STS3032.SetControlMode | delta6_python_SDK/scservo_sdk/sts3023.py:116-128 | succeeds iff the mode is 0 or 2; on success writes the mode register and records the mode, otherwise changes nothing |
| Servo.STS3032.WriteAngle | delta6_python_SDK/scservo_sdk/sts3023.py:80-92 | switches to mode 0 when not in it, succeeds iff the angle is in [-180, 180], and then writes a goal position in [0, 4095] |
| Servo.STS3032.SetMaxTorque | delta6_python_SDK/scservo_sdk/sts3023.py:94-98 | succeeds and writes iff the value is in [0, 1000] |
| Servo.STS3032.WriteTorque | delta6_python_SDK/scservo_sdk/sts3023.py:130-153 | switches to mode 2 when not in it, then sends the two little-endian bytes of the torque word |
| Gripper.NormalizeMode | delta6_python_SDK/Delta6_controller/gripper_controller.py:78-80 | the result is a supported mode, and it equals the input iff the input is supported |
| Gripper.ClampAngle | delta6_python_SDK/Delta6_controller/gripper_controller.py:105 | the result lies in a non-empty range and is the angle when that is inside; an empty range yields its lower end |
| Gripper.ClampTorque | delta6_python_SDK/Delta6_controller/gripper_controller.py:112 | the result lies in [-1000, 1000] and is the torque when inside, the nearer bound otherwise |
| Gripper.ClampWidth | delta6_python_SDK/Delta6_controller/gripper_controller.py:130 | the opening is cut into [0, 31.5] mm |
| Gripper.AngleOfPosition | delta6_python_SDK/Delta6_controller/gripper_controller.py:130-135 | the angle is proportional to the clamped opening: 31.5 mm corresponds to the far end of the range |
| Gripper.PositionOfAngle | delta6_python_SDK/Delta6_controller/gripper_controller.py:122-127 | the opening lies in [0, 31.5] mm and, for an angle within the range, is proportional to it |
| Gripper.ReconcilePackets | delta6_python_SDK/Delta6_controller/gripper_controller.py:41-47 | nothing is sent iff `to_set_enable == enabled`; otherwise the last packet writes 1 or 0 to the torque enable register as `to_set_enable` says |
| Gripper.CommandPackets | delta6_python_SDK/Delta6_controller/gripper_controller.py:48-58 | an unknown mode sends nothing; "torque" and "disable" end with the torque write and switch mode only when the servo is not in torque mode; "pos" switches only when not in position mode and ends with the goal position of an accepted angle |
| Gripper.AngleOfPositionRange | delta6_python_SDK/Delta6_controller/gripper_controller.py:129-136 | the angle `set_pos` computes lies between 0 and the far end of the range |
| Gripper.PositionRoundTrip | delta6_python_SDK/Delta6_controller/gripper_controller.py:121-136 | once the servo reaches the angle `set_pos` chose, `get_current_pos` reports the requested opening, clamped to [0, 31.5] |
| Gripper.Delta6GripperController.constructor | delta6_python_SDK/Delta6_controller/gripper_controller.py:7-23 | the initial targets, flags, range and mode |
| Gripper.Delta6GripperController.Loop | delta6_python_SDK/Delta6_controller/gripper_controller.py:34-58 | the current angle changes only on a successful read; afterwards `enabled == to_set_enable`; an enable or disable command is sent only when they differed; an enabled servo gets the mode's command |
| Gripper.Delta6GripperController.SendCommand | delta6_python_SDK/Delta6_controller/gripper_controller.py:48-58 | "pos" writes the target angle, "torque" and "disable" write the target torque, and an unknown mode sends nothing |
| Gripper.Delta6GripperController.SetEnable | delta6_python_SDK/Delta6_controller/gripper_controller.py:66-68 | requests enabling |
| Gripper.Delta6GripperController.SetDisable | delta6_python_SDK/Delta6_controller/gripper_controller.py:70-72 | requests disabling |
| Gripper.Delta6GripperController.SetMode | delta6_python_SDK/Delta6_controller/gripper_controller.py:74-101 | an unsupported mode becomes "pos"; afterwards `enabled == to_set_enable`, both false iff the mode is "disable"; the servo's mode and packets match the mode |
| Gripper.Delta6GripperController.SetAngle | delta6_python_SDK/Delta6_controller/gripper_controller.py:103-109 | the target is the clamped angle and lies in the range when the range is non-empty |
| Gripper.Delta6GripperController.SetTorque | delta6_python_SDK/Delta6_controller/gripper_controller.py:111-113 | the target torque is clamped into [-1000, 1000] |
| Gripper.Delta6GripperController.GetCurrentPos | delta6_python_SDK/Delta6_controller/gripper_controller.py:121-127 | 0 before calibration, always within [0, max_width] |
| Gripper.Delta6GripperController.SetPos | delta6_python_SDK/Delta6_controller/gripper_controller.py:129-136 | unchanged target before calibration; otherwise the target is in the range and maps back to the clamped opening |
| Gripper.Delta6GripperController.Calibration | delta6_python_SDK/Delta6_controller/gripper_controller.py:168-190 | the configuration packets in order; the range ends as (0, \|far angle\|) and the target as \|far angle\| |
| Gripper.Delta6GripperController.Setup | delta6_python_SDK/Delta6_controller/gripper_controller.py:25-32 | calibration then the normalised mode: the range and target of calibration, the enable flags agreeing and false only in "disable", the servo in the mode's control mode, and the calibration packets followed by the mode's packets; no other field changes |
| Kinematics.SpringTorques | delta6_python_SDK/delta6_kinematics/delta6_analytics.py:68-78 | torques 1, 2, 3 and 6 are angle times the coefficient; torques 4 and 5 are doubled iff the version is "double-springs-roll-pitch" |
| Kinematics.EulerJointsAsWritten | delta6_python_SDK/delta6_kinematics/delta6_analytics.py:352-363 | the divisions as written, put back through the spring law, give the torques except that with double springs torque 6 comes back halved |
| Kinematics.EulerJoints | delta6_python_SDK/delta6_kinematics/delta6_analytics.py:352-363 | the corrected divisions, put back through the spring law, give exactly the torques they started from |
| Kinematics.SpringInversion | delta6_python_SDK/delta6_kinematics/delta6_analytics.py:352-363 | the corrected torque-to-angle divisions recover every angle from the spring torques, in both versions |
| Kinematics.SpringInversionAsWritten | delta6_python_SDK/delta6_kinematics/delta6_analytics.py:352-363 | the divisions as written recover joints 1-5 in both versions, and joint 6 only in the original version; with double springs it comes back halved |
| Kinematics.YawHalvedExample | delta6_python_SDK/delta6_kinematics/delta6_analytics.py:355-359 | with double springs and coefficient 0.639236, a yaw of 1 rad is read back as 0.5 rad |
| Kinematics.RemapsInverse | delta6_python_SDK/delta6_kinematics/delta6_analytics.py:217-219 | IK's input remap and FK's output remap (lines 161-163) are inverse both ways round |
| Kinematics.FkRemap | delta6_python_SDK/delta6_kinematics/delta6_analytics.py:160-163 | the remapped position maps back through the inverse-kinematics remap to the solver point |
| Kinematics.IkRemap | delta6_python_SDK/delta6_kinematics/delta6_analytics.py:217-219 | metres become millimetres with z measured down from the base offset, and the distance from the vertical axis is scaled by 1000 |
| Kinematics.LegPoints | delta6_python_SDK/delta6_kinematics/delta6_analytics.py:222-232 | three leg points, the first the point itself, all at the same height, and, when cos and sin of 120 degrees satisfy cos^2 + sin^2 = 1, all at the same distance from the vertical axis |
| Kinematics.PositionToTransMatrix | delta6_python_SDK/delta6_kinematics/delta6_analytics.py:390-416 | fails iff the input does not have 6 elements; otherwise a 4x4 matrix with the rotation block from the angles, (x, y, z) in the last column and bottom row [0, 0, 0, 1] |
| Kinematics.RepresentWrenchToBAsWritten | delta6_python_SDK/delta6_kinematics/delta6_analytics.py:372-387 | `[R^T f - R^T (t x tau), R^T tau]`; it succeeds iff the transform has 6 elements |
| Kinematics.RepresentWrenchToB | delta6_python_SDK/delta6_kinematics/delta6_analytics.py:372-387 | the corrected change of reference point and frame; it succeeds iff the transform has 6 elements |
| Kinematics.WrenchZeroTranslation | delta6_python_SDK/delta6_kinematics/delta6_analytics.py:89-91 | with zero translation both transforms are the same pure rotation of force and moment |
| Kinematics.ZeroWrench | delta6_python_SDK/delta6_kinematics/delta6_analytics.py:372-387 | the zero wrench maps to zero under either transform |
| Kinematics.ForceIndependentOfMoment | delta6_python_SDK/delta6_kinematics/delta6_analytics.py:381-383 | the corrected force part does not depend on the moment |
| Kinematics.WrenchTranslationOnly | delta6_python_SDK/delta6_kinematics/delta6_analytics.py:372-387 | without rotation the corrected transform is `(f, tau - t x f)` and the one as written is `(f - t x tau, tau)` |
| Kinematics.PureMomentStaysPure | delta6_python_SDK/delta6_kinematics/delta6_analytics.py:381-384 | under the corrected transform a pure moment stays a pure moment for every translation |
| Kinematics.PureMomentBecomesForce | delta6_python_SDK/delta6_kinematics/delta6_analytics.py:381-383 | as written, a pure moment (0, 0, 1) moved by (1, 0, 0) turns into the force (0, 1, 0) |
| Kinematics.DeltaRobot.constructor | delta6_python_SDK/delta6_kinematics/delta6_analytics.py:16-54 | the dimensions as given, z offset 33 + 30 = 63, all angles and torques 0 |
| Kinematics.DeltaRobot.UpdateAngles | delta6_python_SDK/delta6_kinematics/delta6_analytics.py:60-66 | the six angles become the arguments and the torques are unchanged |
| Kinematics.DeltaRobot.UpdateTorques | delta6_python_SDK/delta6_kinematics/delta6_analytics.py:68-78 | the torques follow the version's spring law and the angles are unchanged |
| Kinematics.DeltaRobot.Update | delta6_python_SDK/delta6_kinematics/delta6_analytics.py:56-58 | angles replaced, torques by the spring law, and for a nonzero coefficient the corrected inversion gives the angles back |
| Kinematics.DeltaRobot.ForwardKinematics | delta6_python_SDK/delta6_kinematics/delta6_analytics.py:99-170 | no pose iff the discriminant b^2 - 4ac is negative; otherwise the position remaps back to the intersection point of the offset short-arm angles and the orientation is the Euler conversion of joints 6, 4, 5 |
| Kinematics.DeltaRobot.InverseKinematics | delta6_python_SDK/delta6_kinematics/delta6_analytics.py:204-245 | a result iff all three leg solves succeed, never a partial result |
| Kinematics.DeltaRobot.OffsetsCancel | delta6_python_SDK/delta6_kinematics/delta6_analytics.py:236-238 | IK subtracts exactly the offset FK adds (lines 110-112): the offset short-arm angles of its result are the leg solutions |
| Kinematics.DeltaRobot.FkIkRoundTrip | delta6_python_SDK/delta6_kinematics/delta6_analytics.py:457-473 | FK of IK's joints is the requested pose when the sphere intersection at IK's leg angles is the point IK started from and the two Euler conversions are inverse |
| Kinematics.DeltaRobot.CalculateEndForce | delta6_python_SDK/delta6_kinematics/delta6_analytics.py:83-94 | fails on a zero spring coefficient, then when the arm-only forward kinematics of `calculate_force_xyz` (lines 271-272) has no pose, then when the robot's own has none; otherwise the force at the arm-only position and the moments torques 4-6, both rotated into the robot's pose frame with zero translation |
| Kinematics.DeltaRobot.ArmAngles | delta6_python_SDK/delta6_kinematics/delta6_analytics.py:271-272 | the angles whose spring torques are the arm torques, with the wrist angles 0 |
| Kinematics.DeltaRobot.FkArmOnly | delta6_python_SDK/delta6_kinematics/delta6_analytics.py:110-163 | whether forward kinematics has a pose, and its position, depend on the arm angles alone |
| Kinematics.DeltaRobot.GetFkResult | delta6_python_SDK/delta6_kinematics/delta6_analytics.py:96-97 | no pose iff the discriminant at the robot's own offset arm angles is negative; otherwise the orientation converts its own joints 6, 4, 5 |
| Kinematics.DeltaRobot.GetEndForce | delta6_python_SDK/delta6_kinematics/delta6_analytics.py:80-81 | with spring-law torques, as `update` leaves them, it fails exactly when the robot's own forward kinematics does, and the force is evaluated at the robot's own position |
| Kinematics.DeltaRobot.EndForceAtOwnPose | delta6_python_SDK/delta6_kinematics/delta6_analytics.py:80-94 | with spring-law torques the arm-only forward kinematics fails iff the robot's own does, and they agree on the position |
| Kinematics.DeltaRobot.CalculateEulerPose | delta6_python_SDK/delta6_kinematics/delta6_analytics.py:348-369 | whenever the solved torques are the spring torques of some angles, the pose is FK of those angles |
| Kinematics.DeltaRobot.CalculateEulerPoseAsWritten | delta6_python_SDK/delta6_kinematics/delta6_analytics.py:348-369 | with the divisions as written, the pose is forward kinematics of the angles whose spring torques were solved for, except that with double springs the yaw is halved |
| Kinematics.DeltaRobot.AsWrittenPoseAngles | delta6_python_SDK/delta6_kinematics/delta6_analytics.py:352-363 | the divisions as written give back the solved-for angles, with the yaw halved under double springs |
| Kinematics.DeltaRobot.EulerPoseInverts | delta6_python_SDK/delta6_kinematics/delta6_analytics.py:352-363 | the divisions give back the angles whose spring torques were solved for |

## Left out

- Trigonometry, `math.sqrt` and the root selection of forward kinematics (`delta6_analytics.py` lines 117-158) enter as `Numerics.quadratic` and `Numerics.centre`. The division by `a` or `dnm` inside them, which could raise `ZeroDivisionError`, is therefore not modelled.
- The per-leg solve `_calculate_angle_yz`, `calculate_force_xyz` (including its own division by the spring coefficient) and the `fsolve` search of `calculate_torques` are parameters (`Numerics.legAngle`, `Numerics.forceXyz`, `Numerics.solveTorques`). scipy's Euler conversions and `as_matrix` are parameters as well. math.cos and math.sin of 2π/3 are the parameters `cos120` and `sin120`.
- Kinematics.DeltaRobot.CalculateEulerPose: it uses the corrected divisions (see the first row of ## Findings, line 359); the divisions as written are `Kinematics.DeltaRobot.CalculateEulerPoseAsWritten`. `np.round(thetas, 5)` is float rounding and is not modelled. The spring coefficient must be nonzero, where Python would raise `ZeroDivisionError`.
- Kinematics.DeltaRobot.CalculateEndForce: the `ZeroDivisionError` of a zero spring coefficient and the `TypeError`s of unpacking or indexing a `None` pose are failure values (`ZeroSpring`, `NoArmPose`, `NoPose`). The force itself, computed from the arm-only position, is the parameter `Numerics.forceXyz`.
- Kinematics.RepresentWrenchToB: the wrench is a force and a moment rather than a six-element list. Other list lengths are not modelled.
- Default arguments are not modelled: the `DeltaRobot` constructor takes every dimension explicitly (`delta6_analytics.py` line 16 defaults them to 40, 120, 72, 21.24 mm, π/6, 0.639236 and "original"), and `int_to_byte_array`'s `length=2` is an explicit argument of `Servo.IntToByteArray`. The gripper constructor's `port` and `freq` are port and scheduling parameters and are dropped.
- Floating point: every real-valued quantity is an exact real. Properties such as `Servo.RawAngleRoundTrip` hold in exact arithmetic only.
- Firmware hardware:
  - SPI sensor access (`ercks`) is replaced by a sequence of six readings per pass;
  - `Serial` is an input byte sequence and a returned output;
  - the EEPROM is an array of six `int` slots;
  - `delay(10)` is not modelled.
- Firmware.SensorBoard.ProcessSerial: `sensed[k]` is what the sensors would read if byte k completes a calibration. Exactly when the hardware is sampled is not modelled.
- Firmware.Int16: `positions[i] - calibrationOffsets[i]` is computed on unbounded integers before the `int16_t` wrap. On an 8-bit AVR, where `int` is 16 bits, an overflowing subtraction would be undefined behaviour; the model shows the two's-complement result.
- Servo port handling is not modelled: opening and closing the port, the baud rate and the `scservo_sdk` packet handler. Writes append to the `sent` log. The communication results they would return are not modelled.
- `STS3032.close` is port I/O. `read_velocity` and its `map_vel` remapping are not modelled: nothing in the core calls them.
- Gripper.Delta6GripperController.Calibration: the two `_wait_until_stall` searches are not modelled. Their `write_angle` packets are not in the log, and the sleeps are dropped. The angle at which the jaw stalled when opening is the parameter `farAngle`.
- Gripper.Delta6GripperController.Loop: the `ValueError` that `write_angle` raises for a target outside [-180, 180] would leave `loop` by exception. It is the last statement, so the model ignores the failure, with the same packets and state. The printed warning for an unknown mode is not modelled.
- The `RTLoop` scheduling base class, `shutdown`, `get_current_angle` and `get_current_load` are not modelled. `shutdown` is port I/O and the two getters return a field.
- `Delta6_grinder/grinder.py`, `delta6_sensor_interface/sensors_calibration.py`, `example.py`, `burn_firmware.py`, `setup.py` and the website are not part of this model, nor is the `ercks` sensor driver beyond the -1 it returns on a failed read.

## Findings

| source | as written | input that shows it | evidently intended | confidence | as-written member | corrected member |
|---|---|---|---|---|---|---|
| delta6_python_SDK/delta6_kinematics/delta6_analytics.py:359 | in the double-springs version `theta6 = torque6/(2*spring_coef)`, although `update_torques` (line 72) sets `torque6 = theta6*spring_coef` with a single spring | version "double-springs-roll-pitch", spring_coef 0.639236, theta6 = 1 rad: torque6 = 0.639236 is turned back into a yaw of 0.5 rad (Kinematics.YawHalvedExample) | only joints 4 and 5 divided by 2k, joint 6 by k, so that the divisions invert the spring law in both versions (Kinematics.SpringInversion) | medium; not executed | Kinematics.EulerJointsAsWritten | Kinematics.EulerJoints |
| delta6_python_SDK/delta6_kinematics/delta6_analytics.py:380-383 | `f_b = R^T f - R^T (t x tau)`, `tau_b = R^T tau`: a moment times a length is subtracted from the force | no rotation, t = (1, 0, 0), f = 0, tau = (0, 0, 1): the pure moment becomes the force (0, 1, 0) (Kinematics.PureMomentBecomesForce) | `f_b = R^T f`, `tau_b = R^T (tau - t x f)`, the change of reference point of a wrench; a pure moment stays a pure moment (Kinematics.PureMomentStaysPure). The only caller passes zero translation, where both agree (Kinematics.WrenchZeroTranslation) | medium; not executed | Kinematics.RepresentWrenchToBAsWritten | Kinematics.RepresentWrenchToB |
