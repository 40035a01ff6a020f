/** The STS3032 servo driver: argument validation, the remembered control
    mode, and the encodings between physical values and register contents.
    The serial packet handler is abstracted: writes are appended to a log of
    packets, and what a read returns is a function supplied by the caller. */
module Servo {
  import opened Wrappers

  // Register addresses of the STS3032 control table
  const ControlModeAddr := 33
  const TorqueEnableAddr := 40
  const AccAddr := 41
  const GoalPositionAddr := 42
  const TimAddr := 44
  const TorqueAddr := 44
  const VelAddr := 46
  const MaxTorqueAddr := 48
  const PresentPositionAddr := 56
  const LoadAddr := 60

  const PositionMode := 0
  const TorqueMode := 2

  /** The largest raw position: 4095 ticks span 360 degrees. */
  const MaxRaw := 4095

  /** A packet sent through the packet handler. */
  datatype Packet =
    | RegisterWrite(motor: int, address: int, length: int, data: int)  // write1/2/4ByteTxRx
    | BlockWrite(motor: int, address: int, length: int, bytes: seq<int>)  // writeTxRx

  /** The `ValueError`s the driver raises. */
  datatype ServoError = UnsupportedLength | UnsupportedMode | AngleOutOfRange | TorqueOutOfRange

  datatype Comm = CommSuccess | CommFailure(code: int)

  /** What `readNByteTxRx` returns: the register value (absent when nothing
      came back), the communication result and the servo's error byte. */
  datatype WordReply = WordReply(data: Option<int>, comm: Comm, error: int)

  /** What `readTxRx` returns: the bytes read. */
  datatype BlockReply = BlockReply(data: Option<seq<int>>, comm: Comm, error: int)

  /** The servo's answer to a read of `length` bytes at `address` of `motor`. */
  type WordReader = (int, int, int) -> WordReply
  type BlockReader = (int, int, int) -> BlockReply

  predicate SupportedLength(length: int)
  {
    length == 1 || length == 2 || length == 4
  }

  predicate SupportedMode(mode: int)
  {
    mode == PositionMode || mode == TorqueMode
  }

  // ---------------------------------------------------------------------------
  // Number conversions

  /** Python's `int()` on a float: truncation toward zero. */
  function Trunc(x: real): (r: int)
    ensures 0.0 <= x ==> r as real <= x < r as real + 1.0
    ensures x <= 0.0 ==> r as real - 1.0 < x <= r as real
  {
    if x >= 0.0 then x.Floor else -((-x).Floor)
  }

  /** `max(lo, min(value, hi))`. */
  function Clamp(value: real, lo: real, hi: real): (r: real)
    requires lo <= hi
    ensures lo <= r <= hi
    ensures lo <= value <= hi ==> r == value
    ensures value < lo ==> r == lo
    ensures hi < value ==> r == hi
  {
    if value < lo then lo else if hi < value then hi else value
  }

  function Pow256(n: nat): (r: nat)
    ensures r > 0
  {
    if n == 0 then 1 else 256 * Pow256(n - 1)
  }

  /** `int_to_byte_array`: byte i is `(value >> 8*i) & 0xFF`. Python's `>>`
      floors and its `& 0xFF` keeps the low byte of the two's complement,
      which are Dafny's Euclidean `/` and `%` by positive divisors. */
  function IntToByteArray(value: int, length: nat): (r: seq<int>)
    ensures |r| == length
    ensures forall i :: 0 <= i < length ==> 0 <= r[i] < 256
  {
    seq(length, i requires 0 <= i < length => (value / Pow256(i)) % 256)
  }

  /** `int.from_bytes(bytes, "little")`. */
  function FromLittleEndian(bytes: seq<int>): (v: int)
    ensures (forall i :: 0 <= i < |bytes| ==> 0 <= bytes[i] < 256) ==> 0 <= v < Pow256(|bytes|)
  {
    if bytes == [] then 0 else bytes[0] + 256 * FromLittleEndian(bytes[1..])
  }

  /** Euclidean division is unique. */
  lemma DivModUnique(v: int, d: int, q: int, r: int)
    requires d > 0 && v == q * d + r && 0 <= r < d
    ensures v / d == q && v % d == r
  {
    var q0, r0 := v / d, v % d;
    assert (q - q0) * d == r0 - r;
    if q > q0 {
      MulAtLeast(q - q0, d);
    } else if q < q0 {
      MulAtLeast(q0 - q, d);
    }
  }

  lemma MulAtLeast(a: int, d: int)
    requires a >= 1 && d > 0
    ensures a * d >= d
  {
    assert a * d == (a - 1) * d + d;
  }

  lemma DivDiv(v: int, n: nat)
    ensures (v / 256) / Pow256(n) == v / Pow256(n + 1)
  {
    var q := (v / 256) / Pow256(n);
    var r := (v / 256) % Pow256(n);
    assert v / 256 == q * Pow256(n) + r;
    assert v == q * Pow256(n + 1) + (r * 256 + v % 256);
    DivModUnique(v, Pow256(n + 1), q, r * 256 + v % 256);
  }

  /** Splitting off the lowest byte. */
  lemma IntToByteArrayCons(value: int, length: nat)
    requires length > 0
    ensures IntToByteArray(value, length) == [value % 256] + IntToByteArray(value / 256, length - 1)
  {
    var a := IntToByteArray(value, length);
    var b := [value % 256] + IntToByteArray(value / 256, length - 1);
    forall i | 0 < i < length
      ensures a[i] == b[i]
    {
      DivDiv(value, i - 1);
    }
  }

  /** Reading the bytes back little-endian gives the value modulo 256^length;
      for a value that fits, the value itself. */
  lemma {:induction false} ByteArrayRoundTrip(value: int, length: nat)
    ensures FromLittleEndian(IntToByteArray(value, length)) == value % Pow256(length)
    decreases length
  {
    if length > 0 {
      IntToByteArrayCons(value, length);
      var bytes := IntToByteArray(value, length);
      assert bytes[1..] == IntToByteArray(value / 256, length - 1);
      ByteArrayRoundTrip(value / 256, length - 1);
      ModNext(value, Pow256(length - 1));
    }
  }

  /** The remainder by 256*p is the low byte plus 256 times the remainder of
      the rest by p. */
  lemma ModNext(value: int, p: int)
    requires p > 0
    ensures value % (256 * p) == value % 256 + 256 * ((value / 256) % p)
  {
    var q := (value / 256) / p;
    var r := (value / 256) % p;
    assert value / 256 == q * p + r;
    assert q * (256 * p) == 256 * (q * p);
    assert value == q * (256 * p) + (value % 256 + 256 * r);
    DivModUnique(value, 256 * p, q, value % 256 + 256 * r);
  }

  /** Two bytes: `lo + 256*hi == value` for 0 <= value < 65536. */
  lemma WordRoundTrip(value: int)
    requires 0 <= value < 65536
    ensures var bytes := IntToByteArray(value, 2);
            bytes[0] + 256 * bytes[1] == value
  {
    ByteArrayRoundTrip(value, 2);
    var bytes := IntToByteArray(value, 2);
    assert bytes[1..][1..] == [];
  }

  // ---------------------------------------------------------------------------
  // Angle scaling

  /** `write_angle`'s goal position: `int((angle + 180) * 4095 / 360)`. */
  function RawPosition(angle: real): (raw: int)
    ensures -180.0 <= angle ==> raw as real <= (angle + 180.0) * 4095.0 / 360.0 < raw as real + 1.0
  {
    Trunc((angle + 180.0) * 4095.0 / 360.0)
  }

  /** `read_angle`'s scaling: `raw * 360 / 4095 - 180`. */
  function AngleOfRaw(raw: int): (angle: real)
    ensures (angle + 180.0) * 4095.0 / 360.0 == raw as real
  {
    raw as real * 360.0 / 4095.0 - 180.0
  }

  /** An accepted angle is written as a raw position in [0, 4095]. */
  lemma RawPositionRange(angle: real)
    requires -180.0 <= angle <= 180.0
    ensures 0 <= RawPosition(angle) <= MaxRaw
  {
  }

  /** A raw position in [0, 4095] reads as an angle in [-180, 180]. */
  lemma AngleOfRawRange(raw: int)
    requires 0 <= raw <= MaxRaw
    ensures -180.0 <= AngleOfRaw(raw) <= 180.0
  {
  }

  /** Reading back the angle of a raw position and writing it again gives the
      same raw position (in exact arithmetic). */
  lemma RawAngleRoundTrip(raw: int)
    requires 0 <= raw <= MaxRaw
    ensures RawPosition(AngleOfRaw(raw)) == raw
  {
    assert (AngleOfRaw(raw) + 180.0) * 4095.0 / 360.0 == raw as real;
  }

  /** Writing an angle and reading it back loses less than one tick
      (360/4095 degree), always downwards. */
  lemma AngleQuantization(angle: real)
    requires -180.0 <= angle <= 180.0
    ensures AngleOfRaw(RawPosition(angle)) <= angle < AngleOfRaw(RawPosition(angle)) + 360.0 / 4095.0
  {
    var x := (angle + 180.0) * 4095.0 / 360.0;
    var k := RawPosition(angle);
    assert k as real <= x < k as real + 1.0;
    assert angle == x * 360.0 / 4095.0 - 180.0;
  }

  // ---------------------------------------------------------------------------
  // Torque and load encodings

  /** `map_torque`: sign-magnitude with the sign in bit 10 (1024). */
  function MapTorque(value: int): (r: int)
    ensures -1000 <= value <= 1000 ==> (0 <= r <= 1000 || 1025 <= r <= 2024)
    ensures value >= 0 ==> r == value
    ensures value < 0 ==> r == 1024 + -value
  {
    if value < 0 then -value + 1024 else value
  }

  /** The magnitude of a load word: `raw & 0x3FF`. On Python's unbounded
      two's complement integers masking the low ten bits is the Euclidean
      remainder by 1024, and bit 10 is the parity of the floored quotient. */
  function LoadMagnitude(raw: int): (r: int)
    ensures 0 <= r < 1024
  {
    raw % 1024
  }

  /** The direction of a load word: -1 when bit `0x400` is set. */
  function LoadDirection(raw: int): (r: int)
    ensures r == -1 || r == 1
  {
    if (raw / 1024) % 2 == 1 then -1 else 1
  }

  /** The value `write_torque` sends for a requested torque: clamped to
      [-1000, 1000], truncated, sign-mapped. */
  function TorqueWord(torque: real): (r: int)
    ensures 0 <= r <= 1000 || 1025 <= r <= 2024
  {
    MapTorque(Trunc(Clamp(torque, -1000.0, 1000.0)))
  }

  /** Decoding a torque word with the load scheme (`& 0x3FF`, `& 0x400`)
      recovers the clamped, truncated torque. */
  lemma TorqueRoundTrip(torque: real)
    ensures var w := TorqueWord(torque);
            LoadDirection(w) * LoadMagnitude(w) == Trunc(Clamp(torque, -1000.0, 1000.0))
  {
    var v := Trunc(Clamp(torque, -1000.0, 1000.0));
    assert -1000 <= v <= 1000;
  }

  /** The two bytes `write_torque` sends read back little-endian as the
      torque word. */
  lemma TorqueBytes(torque: real)
    ensures FromLittleEndian(IntToByteArray(TorqueWord(torque), 2)) == TorqueWord(torque)
  {
    ByteArrayRoundTrip(TorqueWord(torque), 2);
    assert Pow256(2) == 65536;
  }

  // ---------------------------------------------------------------------------
  // Reads

  /** `read_register`: the length selects `read1/2/4ByteTxRx`. */
  function ReadRegister(read: WordReader, motor: int, address: int, length: int): (r: Result<WordReply, ServoError>)
    ensures r.Success? <==> SupportedLength(length)
    ensures r.Failure? ==> r.error == UnsupportedLength
    ensures r.Success? ==> r.value == read(motor, address, length)
  {
    if SupportedLength(length) then Success(read(motor, address, length))
    else Failure(UnsupportedLength)
  }

  datatype AngleReading = AngleReading(angle: Option<real>, comm: Comm, error: int)

  /** `read_angle`: the present position in degrees, or `None` when the read
      failed or returned nothing. */
  function ReadAngle(read: WordReader, motor: int): (r: AngleReading)
    ensures var reply := read(motor, PresentPositionAddr, 2);
            && r.comm == reply.comm && r.error == reply.error
            && (r.angle.None? <==> reply.comm != CommSuccess || reply.data.None?)
            && (r.angle.Some? && 0 <= reply.data.value <= MaxRaw ==>
                  -180.0 <= r.angle.value <= 180.0 && RawPosition(r.angle.value) == reply.data.value)
  {
    var reply := read(motor, PresentPositionAddr, 2);
    if reply.comm != CommSuccess || reply.data.None? then AngleReading(None, reply.comm, reply.error)
    else
      AngleOfRawRangeIfRaw(reply.data.value);
      AngleReading(Some(AngleOfRaw(reply.data.value)), reply.comm, reply.error)
  }

  lemma AngleOfRawRangeIfRaw(raw: int)
    ensures 0 <= raw <= MaxRaw ==>
              -180.0 <= AngleOfRaw(raw) <= 180.0 && RawPosition(AngleOfRaw(raw)) == raw
  {
    if 0 <= raw <= MaxRaw {
      AngleOfRawRange(raw);
      RawAngleRoundTrip(raw);
    }
  }

  datatype LoadReading = LoadReading(load: Option<int>, direction: Option<int>, comm: Comm, error: int)

  /** `read_load`: magnitude and direction of the present load. */
  function ReadLoad(read: WordReader, motor: int): (r: LoadReading)
    ensures var reply := read(motor, LoadAddr, 2);
            && r.comm == reply.comm && r.error == reply.error
            && (r.load.None? <==> reply.comm != CommSuccess || reply.data.None?)
            && r.direction.None? == r.load.None?
            && (r.load.Some? ==>
                  0 <= r.load.value < 1024 && r.load.value == reply.data.value % 1024
                  && (r.direction.value == -1 <==> (reply.data.value / 1024) % 2 == 1)
                  && (r.direction.value == 1 <==> (reply.data.value / 1024) % 2 == 0))
  {
    var reply := ReadRegister(read, motor, LoadAddr, 2).value;
    if reply.comm != CommSuccess || reply.data.None? then
      LoadReading(None, None, reply.comm, reply.error)
    else
      LoadReading(Some(LoadMagnitude(reply.data.value)), Some(LoadDirection(reply.data.value)), reply.comm, reply.error)
  }

  datatype PosLoadReading = PosLoadReading(angle: Option<real>, load: Option<int>, comm: Comm, error: int)

  /** Python slicing `s[lo:hi]`: bounds past the end are cut back. */
  function Slice(s: seq<int>, lo: nat, hi: nat): (r: seq<int>)
    requires lo <= hi
    ensures hi <= |s| ==> r == s[lo..hi]
    ensures |s| <= lo ==> r == []
    ensures lo < |s| < hi ==> r == s[lo..]
  {
    if |s| <= lo then [] else if |s| <= hi then s[lo..] else s[lo..hi]
  }

  /** `read_pos_and_load`: one 6-byte read from the present position, whose
      bytes 0-1 are the position and bytes 4-5 the load. */
  function ReadPosAndLoad(readBlock: BlockReader, motor: int): (r: PosLoadReading)
    ensures var reply := readBlock(motor, PresentPositionAddr, 6);
            && r.comm == reply.comm && r.error == reply.error
            && (r.angle.None? <==> reply.comm != CommSuccess || reply.data.None?)
            && r.load.None? == r.angle.None?
            && (r.angle.Some? ==> r.angle.value == AngleOfRaw(FromLittleEndian(Slice(reply.data.value, 0, 2))))
            && (r.load.Some? ==> -1023 <= r.load.value <= 1023)
  {
    var reply := readBlock(motor, PresentPositionAddr, 6);
    if reply.comm != CommSuccess || reply.data.None? then PosLoadReading(None, None, reply.comm, reply.error)
    else
      var raw := reply.data.value;
      var posRaw := FromLittleEndian(Slice(raw, 0, 2));
      var loadRaw := FromLittleEndian(Slice(raw, 4, 6));
      PosLoadReading(Some(AngleOfRaw(posRaw)), Some(LoadDirection(loadRaw) * LoadMagnitude(loadRaw)),
                     reply.comm, reply.error)
  }

  /** The combined read agrees with `read_angle` and `read_load` when the
      block read's words are what the single-word reads return: the angle is
      the same and the load is the signed `direction * load`. */
  lemma PosAndLoadAgree(read: WordReader, readBlock: BlockReader, motor: int)
    requires var reply := readBlock(motor, PresentPositionAddr, 6);
             reply.comm == CommSuccess && reply.data.Some? && |reply.data.value| == 6
    requires read(motor, PresentPositionAddr, 2)
          == WordReply(Some(FromLittleEndian(readBlock(motor, PresentPositionAddr, 6).data.value[0..2])), CommSuccess, 0)
    requires read(motor, LoadAddr, 2)
          == WordReply(Some(FromLittleEndian(readBlock(motor, PresentPositionAddr, 6).data.value[4..6])), CommSuccess, 0)
    ensures var combined := ReadPosAndLoad(readBlock, motor);
            var load := ReadLoad(read, motor);
            && combined.angle == ReadAngle(read, motor).angle
            && combined.load.Some? && load.load.Some?
            && combined.load.value == load.direction.value * load.load.value
  {
    var raw := readBlock(motor, PresentPositionAddr, 6).data.value;
    assert Slice(raw, 0, 2) == raw[0..2];
    assert Slice(raw, 4, 6) == raw[4..6];
  }

  // ---------------------------------------------------------------------------
  // The packets each driver method sends

  function EnablePackets(motor: int): seq<Packet>
  {
    [RegisterWrite(motor, VelAddr, 2, 2000), RegisterWrite(motor, AccAddr, 1, 200),
     RegisterWrite(motor, TimAddr, 2, 0), RegisterWrite(motor, TorqueEnableAddr, 1, 1)]
  }

  function DisablePackets(motor: int): seq<Packet>
  {
    [RegisterWrite(motor, TorqueEnableAddr, 1, 0)]
  }

  function ModePacket(motor: int, mode: int): Packet
  {
    RegisterWrite(motor, ControlModeAddr, 1, mode)
  }

  /** The mode write `write_angle` and `write_torque` make when the remembered
      mode is not the one they need. */
  function ModeSwitch(motor: int, current: int, needed: int): seq<Packet>
  {
    if current != needed then [ModePacket(motor, needed)] else []
  }

  function MaxTorquePacket(motor: int, torque: int): Packet
  {
    RegisterWrite(motor, MaxTorqueAddr, 2, torque)
  }

  /** The goal-position write of `write_angle`, absent for a rejected angle. */
  function GoalPackets(motor: int, angle: real): seq<Packet>
  {
    if -180.0 <= angle <= 180.0 then [RegisterWrite(motor, GoalPositionAddr, 2, RawPosition(angle))] else []
  }

  function TorquePacket(motor: int, torque: real): Packet
  {
    BlockWrite(motor, TorqueAddr, 2, IntToByteArray(TorqueWord(torque), 2))
  }

  // ---------------------------------------------------------------------------
  // The driver object

  class STS3032 {
    /** The mode last set through `set_control_mode` (0 at construction). */
    var controlMode: int
    /** Every packet written to the servo bus, oldest first. */
    var sent: seq<Packet>

    constructor ()
      ensures controlMode == PositionMode && sent == []
    {
      controlMode := PositionMode;
      sent := [];
    }

    /** `write_register`: lengths 1, 2 and 4 select `write1/2/4ByteTxRx`;
        any other length raises without writing. */
    method WriteRegister(motor: int, address: int, length: int, data: int) returns (r: Outcome<ServoError>)
      modifies this`sent
      ensures r.Pass? <==> SupportedLength(length)
      ensures r.Fail? ==> r.error == UnsupportedLength
      ensures sent == old(sent) + (if SupportedLength(length) then [RegisterWrite(motor, address, length, data)] else [])
    {
      if length == 1 || length == 2 || length == 4 {
        sent := sent + [RegisterWrite(motor, address, length, data)];
        r := Pass;
      } else {
        r := Fail(UnsupportedLength);
      }
    }

    /** `enable_torque`: velocity 2000, acceleration 200, time 0, then torque on. */
    method EnableTorque(motor: int)
      modifies this`sent
      ensures sent == old(sent) + EnablePackets(motor)
    {
      var _ := WriteRegister(motor, VelAddr, 2, 2000);
      var _ := WriteRegister(motor, AccAddr, 1, 200);
      var _ := WriteRegister(motor, TimAddr, 2, 0);
      var _ := WriteRegister(motor, TorqueEnableAddr, 1, 1);
    }

    /** `disable_torque`: torque enable register to 0. */
    method DisableTorque(motor: int)
      modifies this`sent
      ensures sent == old(sent) + DisablePackets(motor)
    {
      var _ := WriteRegister(motor, TorqueEnableAddr, 1, 0);
    }

    /** `reset_zero`: 128 into the torque enable register makes the present
        position the new middle. */
    method ResetZero(motor: int)
      modifies this`sent
      ensures sent == old(sent) + [RegisterWrite(motor, TorqueEnableAddr, 1, 128)]
    {
      var _ := WriteRegister(motor, TorqueEnableAddr, 1, 128);
    }

    /** `set_control_mode`: only modes 0 (position) and 2 (torque); a success
        writes the mode register and remembers the mode. */
    method SetControlMode(motor: int, mode: int) returns (r: Outcome<ServoError>)
      modifies this
      ensures r.Pass? <==> SupportedMode(mode)
      ensures r.Fail? ==> r.error == UnsupportedMode && controlMode == old(controlMode) && sent == old(sent)
      ensures r.Pass? ==> controlMode == mode && sent == old(sent) + [ModePacket(motor, mode)]
    {
      if !(mode == PositionMode || mode == TorqueMode) {
        return Fail(UnsupportedMode);
      }
      var _ := WriteRegister(motor, ControlModeAddr, 1, mode);
      controlMode := mode;
      r := Pass;
    }

    /** `write_angle`: switch to position mode if needed (even when the angle
        is then rejected), check the range, write the goal position. */
    method WriteAngle(motor: int, angle: real) returns (r: Outcome<ServoError>)
      modifies this
      ensures controlMode == PositionMode
      ensures r.Pass? <==> -180.0 <= angle <= 180.0
      ensures r.Fail? ==> r.error == AngleOutOfRange
      ensures sent == old(sent) + ModeSwitch(motor, old(controlMode), PositionMode) + GoalPackets(motor, angle)
      ensures r.Pass? ==> 0 <= RawPosition(angle) <= MaxRaw
    {
      if controlMode != PositionMode {
        var _ := SetControlMode(motor, PositionMode);
      }
      if !(-180.0 <= angle <= 180.0) {
        return Fail(AngleOutOfRange);
      }
      var raw := Trunc((angle + 180.0) * 4095.0 / 360.0);
      RawPositionRange(angle);
      sent := sent + [RegisterWrite(motor, GoalPositionAddr, 2, raw)];
      r := Pass;
    }

    /** `set_max_torque`: only values in [0, 1000]. */
    method SetMaxTorque(motor: int, torque: int) returns (r: Outcome<ServoError>)
      modifies this`sent
      ensures r.Pass? <==> 0 <= torque <= 1000
      ensures r.Fail? ==> r.error == TorqueOutOfRange
      ensures sent == old(sent) + (if r.Pass? then [MaxTorquePacket(motor, torque)] else [])
    {
      if !(0 <= torque <= 1000) {
        return Fail(TorqueOutOfRange);
      }
      r := WriteRegister(motor, MaxTorqueAddr, 2, torque);
    }

    /** `write_torque`: switch to torque mode if needed, then send the
        clamped, truncated, sign-mapped torque as two little-endian bytes. */
    method WriteTorque(motor: int, torque: real)
      modifies this
      ensures controlMode == TorqueMode
      ensures sent == old(sent) + ModeSwitch(motor, old(controlMode), TorqueMode) + [TorquePacket(motor, torque)]
    {
      if controlMode != TorqueMode {
        var _ := SetControlMode(motor, TorqueMode);
      }
      var clamped := Clamp(torque, -1000.0, 1000.0);
      var whole := Trunc(clamped);
      var mapped := MapTorque(whole);
      var data := IntToByteArray(mapped, 2);
      sent := sent + [BlockWrite(motor, TorqueAddr, 2, data)];
    }
  }
}
