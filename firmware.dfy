/** The sensor-board firmware: a three-state framer for host commands on the
    serial line, the bookkeeping of the six rotary sensors (positions, an error
    bitmask, calibration offsets kept in EEPROM) and the 15-byte read response.

    The hardware is abstracted: each pass over the six sensors takes their six
    `readAngle` results as a sequence (-1 means the sensor could not be read),
    the serial input is a sequence of bytes, what is written back is returned,
    and the EEPROM is an array with one `int` slot per sensor. */
module Firmware {
  import opened Wrappers

  type Byte = b: int | 0 <= b < 256

  const StartByte: Byte := 0xAA
  const CmdCalibration: Byte := 0x01
  const CmdRead: Byte := 0x02
  const SensorCount: nat := 6
  const PacketLength: nat := 15
  /** What `readAngle` returns for a sensor that could not be read. */
  const SensorError: int := -1

  // ---------------------------------------------------------------------------
  // Checksum

  /** The mathematical sum of the bytes. */
  function ByteSum(data: seq<Byte>): int
  {
    if data == [] then 0 else ByteSum(data[..|data| - 1]) + data[|data| - 1]
  }

  /** `calculateChecksum`: the sum of the bytes in an 8-bit accumulator. */
  function Checksum(data: seq<Byte>): (sum: Byte)
    ensures (ByteSum(data) - sum) % 256 == 0
  {
    ByteSum(data) % 256
  }

  /** The checksum of a one-byte frame body is that byte, so a command frame
      is valid exactly when its checksum byte repeats the command byte. */
  lemma SingleByteChecksum(c: Byte)
    ensures Checksum([c]) == c
  {
    assert [c][..0] == [];
    assert ByteSum([c]) == ByteSum([]) + c;
  }

  lemma {:induction false} ByteSumUpdate(data: seq<Byte>, k: nat, b: Byte)
    requires k < |data|
    ensures ByteSum(data[k := b]) == ByteSum(data) - data[k] + b
  {
    var n := |data| - 1;
    var d := data[k := b];
    assert ByteSum(d) == ByteSum(d[..n]) + d[n];
    assert ByteSum(data) == ByteSum(data[..n]) + data[n];
    if k < n {
      assert d[..n] == data[..n][k := b];
      ByteSumUpdate(data[..n], k, b);
    } else {
      assert d[..n] == data[..n];
    }
  }

  /** `calculateChecksum(data, length)`: the loop adds each byte to an 8-bit
      sum, which wraps around modulo 256. */
  method CalculateChecksum(data: seq<Byte>) returns (sum: Byte)
    ensures sum == Checksum(data)
    ensures sum == ByteSum(data) % 256
  {
    sum := 0;
    for i := 0 to |data|
      invariant sum == ByteSum(data[..i]) % 256
    {
      assert data[..i + 1][..i] == data[..i];
      sum := (sum + data[i]) % 256;
    }
    assert data[..|data|] == data;
  }

  // ---------------------------------------------------------------------------
  // The read response

  /** The C++ conversion of an `int` to `int16_t`: wrap into [-32768, 32767]. */
  function Int16(x: int): (r: int)
    ensures -0x8000 <= r < 0x8000
    ensures -0x8000 <= x < 0x8000 ==> r == x
  {
    (x + 0x8000) % 0x1_0000 - 0x8000
  }

  /** The cast keeps the value modulo 2^16. */
  lemma Int16Wraps(x: int)
    ensures (x - Int16(x)) % 0x1_0000 == 0
  {
  }

  /** `(v >> 8) & 0xFF` for an `int16_t` v (arithmetic shift). */
  function HighByte(v: int): (b: Byte)
    ensures -0x8000 <= v < 0x8000 ==> b == (v % 0x1_0000) / 256
  {
    if -0x8000 <= v < 0x8000 then HighBytePattern(v); (v / 256) % 256
    else (v / 256) % 256
  }

  /** The arithmetic shift's low byte is the high byte of the 16-bit pattern. */
  lemma HighBytePattern(v: int)
    requires -0x8000 <= v < 0x8000
    ensures (v / 256) % 256 == (v % 0x1_0000) / 256
  {
    var q, r := v / 256, v % 256;
    assert v == 256 * q + r && 0 <= r < 256;
    assert -128 <= q < 128;
    if v >= 0 {
      assert v % 0x1_0000 == v;
    } else {
      assert v % 0x1_0000 == v + 0x1_0000;
      assert v + 0x1_0000 == 256 * (q + 256) + r;
      assert (v + 0x1_0000) / 256 == q + 256;
    }
  }

  /** `v & 0xFF` for an `int16_t` v (two's complement). */
  function LowByte(v: int): (b: Byte)
    ensures -0x8000 <= v < 0x8000 ==> b == (v % 0x1_0000) % 256
  {
    v % 256
  }

  /** How the host reads a big-endian two's-complement 16-bit word. */
  function SignedWord(hi: Byte, lo: Byte): (r: int)
    ensures -0x8000 <= r < 0x8000
  {
    var u := hi * 256 + lo;
    if u < 0x8000 then u else u - 0x1_0000
  }

  lemma WordRoundTrip(v: int)
    requires -0x8000 <= v < 0x8000
    ensures SignedWord(HighByte(v), LowByte(v)) == v
  {
    var q := v / 256;
    assert v == q * 256 + LowByte(v);
    assert -128 <= q < 128;
    if q >= 0 {
      assert HighByte(v) == q;
    } else {
      assert HighByte(v) == q + 256;
    }
  }

  /** The value reported for sensor i: its position less its calibration
      offset, stored in an `int16_t`. */
  function Adjusted(positions: seq<int>, offsets: seq<int>, i: nat): int
    requires i < |positions| && i < |offsets|
  {
    Int16(positions[i] - offsets[i])
  }

  /** Byte k of the 12-byte position payload: high then low byte per sensor. */
  function PayloadByte(positions: seq<int>, offsets: seq<int>, k: nat): Byte
    requires |positions| == SensorCount && |offsets| == SensorCount && k < 2 * SensorCount
  {
    var v := Adjusted(positions, offsets, k / 2);
    if k % 2 == 0 then HighByte(v) else LowByte(v)
  }

  /** Bytes 1..13 of the response: the payload and the error flags. */
  function PacketBody(positions: seq<int>, offsets: seq<int>, flags: bv8): (body: seq<Byte>)
    requires |positions| == SensorCount && |offsets| == SensorCount
    ensures |body| == 2 * SensorCount + 1
  {
    seq(2 * SensorCount, k requires 0 <= k < 2 * SensorCount => PayloadByte(positions, offsets, k))
      + [flags as int]
  }

  /** The packet `handleRead` sends: start byte, body, checksum of the body. */
  function ReadPacket(positions: seq<int>, offsets: seq<int>, flags: bv8): (p: seq<Byte>)
    requires |positions| == SensorCount && |offsets| == SensorCount
    ensures |p| == PacketLength && p[0] == StartByte
  {
    var body := PacketBody(positions, offsets, flags);
    [StartByte] + body + [Checksum(body)]
  }

  /** What a host learns from a response: six signed values and the flags. */
  datatype Reading = Reading(values: seq<int>, flags: Byte)

  /** A reference decoder for the response format: it accepts exactly the
      15-byte packets with the start byte and a matching checksum. */
  function DecodePacket(p: seq<Byte>): (r: Option<Reading>)
    ensures r.Some? <==> |p| == PacketLength && p[0] == StartByte && p[14] == Checksum(p[1..14])
    ensures r.Some? ==> r.value.flags == p[13]
    ensures r.Some? ==> |r.value.values| == SensorCount
    ensures r.Some? ==> forall i :: 0 <= i < SensorCount ==> -0x8000 <= r.value.values[i] < 0x8000
  {
    if |p| != PacketLength || p[0] != StartByte || p[14] != Checksum(p[1..14]) then None
    else Some(Reading(seq(SensorCount, i requires 0 <= i < SensorCount => SignedWord(p[1 + 2 * i], p[2 + 2 * i])),
                      p[13]))
  }

  /** Where each value sits in the response. */
  lemma ReadPacketLayout(positions: seq<int>, offsets: seq<int>, flags: bv8)
    requires |positions| == SensorCount && |offsets| == SensorCount
    ensures var p := ReadPacket(positions, offsets, flags);
            && p[1..14] == PacketBody(positions, offsets, flags)
            && p[14] == Checksum(p[1..14])
            && p[13] == flags as int
            && forall i :: 0 <= i < SensorCount ==>
                 p[1 + 2 * i] == HighByte(Adjusted(positions, offsets, i))
                 && p[2 + 2 * i] == LowByte(Adjusted(positions, offsets, i))
  {
    var p := ReadPacket(positions, offsets, flags);
    var body := PacketBody(positions, offsets, flags);
    assert p == [StartByte] + body + [Checksum(body)];
    assert p[1..14] == body;
    forall i | 0 <= i < SensorCount
      ensures p[1 + 2 * i] == HighByte(Adjusted(positions, offsets, i))
      ensures p[2 + 2 * i] == LowByte(Adjusted(positions, offsets, i))
    {
      assert p[1 + 2 * i] == body[2 * i] == PayloadByte(positions, offsets, 2 * i);
      assert p[2 + 2 * i] == body[2 * i + 1] == PayloadByte(positions, offsets, 2 * i + 1);
    }
  }

  /** A well-framed packet whose words are the big-endian bytes of `values`
      decodes to `values`. */
  lemma DecodeWords(p: seq<Byte>, values: seq<int>)
    requires |p| == PacketLength && p[0] == StartByte && p[14] == Checksum(p[1..14])
    requires |values| == SensorCount
    requires forall i :: 0 <= i < SensorCount ==>
               -0x8000 <= values[i] < 0x8000
               && p[1 + 2 * i] == HighByte(values[i]) && p[2 + 2 * i] == LowByte(values[i])
    ensures DecodePacket(p) == Some(Reading(values, p[13]))
  {
    var r := DecodePacket(p);
    assert r.Some?;
    forall i | 0 <= i < SensorCount
      ensures r.value.values[i] == values[i]
    {
      WordRoundTrip(values[i]);
    }
    assert r.value.values == values;
  }

  /** Decoding a response recovers every offset-corrected value and the flags. */
  lemma PacketRoundTrip(positions: seq<int>, offsets: seq<int>, flags: bv8)
    requires |positions| == SensorCount && |offsets| == SensorCount
    ensures DecodePacket(ReadPacket(positions, offsets, flags))
         == Some(Reading(seq(SensorCount, i requires 0 <= i < SensorCount => Adjusted(positions, offsets, i)), flags as int))
  {
    ReadPacketLayout(positions, offsets, flags);
    DecodeWords(ReadPacket(positions, offsets, flags),
                seq(SensorCount, i requires 0 <= i < SensorCount => Adjusted(positions, offsets, i)));
  }

  /** The additive checksum catches any single corrupted byte of the body. */
  lemma SingleByteErrorDetected(p: seq<Byte>, k: nat, b: Byte)
    requires DecodePacket(p).Some?
    requires 1 <= k <= 13 && b != p[k]
    ensures DecodePacket(p[k := b]) == None
  {
    var body := p[1..14];
    var q := p[k := b];
    assert q[1..14] == body[k - 1 := b];
    ByteSumUpdate(body, k - 1, b);
    ChecksumChanges(ByteSum(body), b - p[k]);
    assert q[14] == p[14] == Checksum(body);
    assert Checksum(q[1..14]) != q[14];
  }

  lemma ChecksumChanges(s: int, d: int)
    requires -256 < d < 256 && d != 0
    ensures (s + d) % 256 != s % 256
  {
  }

  // ---------------------------------------------------------------------------
  // Error flags

  /** `1 << j` as an 8-bit value. */
  function Bit(j: nat): (r: bv8)
    requires j < 8
  {
    match j
    case 0 => 0x01 case 1 => 0x02 case 2 => 0x04 case 3 => 0x08
    case 4 => 0x10 case 5 => 0x20 case 6 => 0x40 case _ => 0x80
  }

  /** Bit j of an 8-bit flag byte. */
  predicate BitSet(flags: bv8, j: nat)
    requires j < 8
  {
    flags & Bit(j) != 0
  }

  /** `errorFlags` after a pass over the first n sensors: the bit of each
      sensor that read -1 is ORed in, in sensor order. */
  function RaiseFlags(flags: bv8, readings: seq<int>, n: nat): bv8
    requires n <= |readings| && n <= 8
  {
    if n == 0 then flags
    else if readings[n - 1] == SensorError then RaiseFlags(flags, readings, n - 1) | Bit(n - 1)
    else RaiseFlags(flags, readings, n - 1)
  }

  /** ORing in bit i sets bit i and leaves the other bits as they were. */
  lemma OrBit(flags: bv8, i: nat, j: nat)
    requires i < 8 && j < 8
    ensures BitSet(flags | Bit(i), j) <==> BitSet(flags, j) || i == j
  {
  }

  lemma {:induction false} RaiseFlagsBits(flags: bv8, readings: seq<int>, n: nat, j: nat)
    requires n <= |readings| && n <= 8 && j < 8
    ensures BitSet(RaiseFlags(flags, readings, n), j) <==>
            BitSet(flags, j) || (j < n && readings[j] == SensorError)
  {
    if n > 0 {
      RaiseFlagsBits(flags, readings, n - 1, j);
      var before := RaiseFlags(flags, readings, n - 1);
      if readings[n - 1] == SensorError {
        assert RaiseFlags(flags, readings, n) == before | Bit(n - 1);
        OrBit(before, n - 1, j);
      } else {
        assert RaiseFlags(flags, readings, n) == before;
      }
    }
  }

  /** After a pass over all sensors, bit j is set exactly when it was set
      before or sensor j read -1. */
  lemma RaiseFlagsAll(flags: bv8, readings: seq<int>)
    requires |readings| == SensorCount
    ensures forall j: nat :: j < 8 ==>
              (BitSet(RaiseFlags(flags, readings, SensorCount), j) <==>
                 BitSet(flags, j) || (j < SensorCount && readings[j] == SensorError))
  {
    forall j: nat | j < 8
      ensures BitSet(RaiseFlags(flags, readings, SensorCount), j) <==>
                BitSet(flags, j) || (j < SensorCount && readings[j] == SensorError)
    {
      RaiseFlagsBits(flags, readings, SensorCount, j);
    }
  }

  // ---------------------------------------------------------------------------
  // The board's state and what each operation does to it

  /** The firmware's globals and statics, with the EEPROM contents. */
  datatype Board = Board(state: FrameState, cmd: Byte, checksum: Byte,
                         positions: seq<int>, offsets: seq<int>, flags: bv8,
                         eeprom: seq<int>)
  {
    predicate Valid()
    {
      |positions| == SensorCount && |offsets| == SensorCount && |eeprom| == SensorCount
    }
  }

  datatype FrameState = WaitStart | ReadCmd | ReadChecksum

  function Zeros(): (z: seq<int>)
    ensures |z| == SensorCount && forall i :: 0 <= i < SensorCount ==> z[i] == 0
  {
    [0, 0, 0, 0, 0, 0]
  }

  /** The state at power-on: every global is zero, the EEPROM keeps its contents. */
  function PowerOn(eeprom: seq<int>): (b: Board)
    requires |eeprom| == SensorCount
    ensures b.Valid()
  {
    Board(WaitStart, 0, 0, Zeros(), Zeros(), 0, eeprom)
  }

  /** `setup`: the calibration offsets are read back from EEPROM. */
  function SetUp(b: Board): (r: Board)
    requires b.Valid()
    ensures r.Valid() && r.offsets == b.eeprom
    ensures r.(offsets := b.offsets) == b
  {
    b.(offsets := b.eeprom)
  }

  /** A reading with the error value replaced by 0. */
  function Sanitized(readings: seq<int>): (r: seq<int>)
    requires |readings| == SensorCount
    ensures |r| == SensorCount
    ensures forall i :: 0 <= i < SensorCount ==> r[i] != SensorError
    ensures forall i :: 0 <= i < SensorCount && readings[i] != SensorError ==> r[i] == readings[i]
  {
    seq(SensorCount, i requires 0 <= i < SensorCount =>
      if readings[i] == SensorError then 0 else readings[i])
  }

  /** The EEPROM after a calibration: the slots of the sensors that read well
      are overwritten with their readings. */
  function Stored(eeprom: seq<int>, readings: seq<int>): (r: seq<int>)
    requires |eeprom| == SensorCount && |readings| == SensorCount
    ensures |r| == SensorCount
    ensures forall i :: 0 <= i < SensorCount ==> r[i] == readings[i] || r[i] == eeprom[i]
    ensures forall i :: 0 <= i < SensorCount && r[i] != eeprom[i] ==> readings[i] != SensorError
    ensures forall i :: 0 <= i < SensorCount && readings[i] != SensorError ==> r[i] == readings[i]
  {
    seq(SensorCount, i requires 0 <= i < SensorCount =>
      if readings[i] == SensorError then eeprom[i] else readings[i])
  }

  /** `updatePositions`. */
  function PositionsUpdated(b: Board, readings: seq<int>): (r: Board)
    requires b.Valid() && |readings| == SensorCount
    ensures r.Valid()
  {
    b.(positions := Sanitized(readings), flags := RaiseFlags(b.flags, readings, SensorCount))
  }

  /** A sensor that read -1 gets position 0 and raises its error bit; the
      others take their reading; offsets, EEPROM and framer are untouched. */
  lemma PositionsUpdatedSpec(b: Board, readings: seq<int>)
    requires b.Valid() && |readings| == SensorCount
    ensures var r := PositionsUpdated(b, readings);
            && (forall i :: 0 <= i < SensorCount ==>
                  (readings[i] == SensorError ==> r.positions[i] == 0)
                  && (readings[i] != SensorError ==> r.positions[i] == readings[i]))
            && (forall j: nat :: j < 8 ==>
                  (BitSet(r.flags, j) <==> BitSet(b.flags, j) || (j < SensorCount && readings[j] == SensorError)))
            && r == b.(positions := r.positions, flags := r.flags)
  {
    RaiseFlagsAll(b.flags, readings);
  }

  /** `handleCalibration`. */
  function Calibrated(b: Board, readings: seq<int>): (r: Board)
    requires b.Valid() && |readings| == SensorCount
    ensures r.Valid()
  {
    b.(offsets := Sanitized(readings),
       eeprom := Stored(b.eeprom, readings),
       flags := RaiseFlags(b.flags, readings, SensorCount))
  }

  /** A sensor that read -1 gets offset 0, keeps its EEPROM slot and raises
      its error bit; the others take their reading as offset and in EEPROM;
      positions and framer are untouched. */
  lemma CalibratedSpec(b: Board, readings: seq<int>)
    requires b.Valid() && |readings| == SensorCount
    ensures var r := Calibrated(b, readings);
            && (forall i :: 0 <= i < SensorCount ==>
                  (readings[i] == SensorError ==> r.offsets[i] == 0 && r.eeprom[i] == b.eeprom[i])
                  && (readings[i] != SensorError ==> r.offsets[i] == readings[i] && r.eeprom[i] == readings[i]))
            && (forall j: nat :: j < 8 ==>
                  (BitSet(r.flags, j) <==> BitSet(b.flags, j) || (j < SensorCount && readings[j] == SensorError)))
            && r == b.(offsets := r.offsets, eeprom := r.eeprom, flags := r.flags)
  {
    RaiseFlagsAll(b.flags, readings);
  }

  /** After a calibration and a restart, the offset of a sensor that read
      well is its reading; a sensor that failed falls back to the offset stored
      by an earlier calibration, although the running board used 0 for it. */
  lemma CalibrationAfterRestart(b: Board, readings: seq<int>)
    requires b.Valid() && |readings| == SensorCount
    ensures forall i :: 0 <= i < SensorCount ==>
              SetUp(PowerOn(Calibrated(b, readings).eeprom)).offsets[i]
                == if readings[i] == SensorError then b.eeprom[i] else readings[i]
    ensures forall i :: 0 <= i < SensorCount ==>
              (SetUp(PowerOn(Calibrated(b, readings).eeprom)).offsets[i] == Calibrated(b, readings).offsets[i] <==>
                 readings[i] != SensorError || b.eeprom[i] == 0)
  {
  }

  /** `handleRead`: the response packet, after which the flags are clear. */
  function Read(b: Board): (r: (Board, seq<Byte>))
    requires b.Valid()
    ensures r.0.Valid()
  {
    (b.(flags := 0), ReadPacket(b.positions, b.offsets, b.flags))
  }

  /** The response decodes on the host to the reported flags, and only the
      flags are cleared. */
  lemma ReadSpec(b: Board)
    requires b.Valid()
    ensures var r := Read(b);
            && DecodePacket(r.1).Some? && DecodePacket(r.1).value.flags == b.flags as int
            && r.0 == b.(flags := 0)
  {
    PacketRoundTrip(b.positions, b.offsets, b.flags);
  }

  /** What a command with a valid checksum does. */
  function Execute(b: Board, command: Byte, sensed: seq<int>): (r: (Board, seq<Byte>))
    requires b.Valid() && |sensed| == SensorCount
    ensures r.0.Valid()
    ensures command != CmdCalibration && command != CmdRead ==> r == (b, [])
    ensures r.1 != [] ==> command == CmdRead
  {
    if command == CmdCalibration then (Calibrated(b, sensed), [])
    else if command == CmdRead then Read(b)
    else (b, [])
  }

  /** One iteration of the `while (Serial.available())` loop of
      `processSerial`: the byte read and, in case a command executes, what
      the sensors read at that moment. */
  function Feed(b: Board, byte: Byte, sensed: seq<int>): (r: (Board, seq<Byte>))
    requires b.Valid() && |sensed| == SensorCount
    ensures r.0.Valid()
  {
    match b.state
    case WaitStart =>
      (if byte == StartByte then b.(state := ReadCmd) else b, [])
    case ReadCmd =>
      (b.(cmd := byte, state := ReadChecksum), [])
    case ReadChecksum =>
      SingleByteChecksum(b.cmd);
      var b1 := b.(checksum := byte);
      var (b2, out) := if byte == Checksum([b.cmd]) then Execute(b1, b.cmd, sensed) else (b1, []);
      (b2.(state := WaitStart), out)
  }

  /** The framer: in `WAIT_START` only 0xAA moves on; the command byte is
      stored; the checksum byte always returns to `WAIT_START`, and a command
      runs only when the checksum byte equals the command byte (the checksum
      of a one-byte payload); only a valid read command sends anything. */
  lemma FeedSpec(b: Board, byte: Byte, sensed: seq<int>)
    requires b.Valid() && |sensed| == SensorCount
    ensures var r := Feed(b, byte, sensed);
            && (b.state == WaitStart ==> r.1 == [] && r.0 == b.(state := r.0.state)
                                         && (r.0.state == ReadCmd <==> byte == StartByte)
                                         && (r.0.state == WaitStart <==> byte != StartByte))
            && (b.state == ReadCmd ==> r == (b.(state := ReadChecksum, cmd := byte), []))
            && (b.state == ReadChecksum ==> r.0.state == WaitStart && r.0.cmd == b.cmd && r.0.checksum == byte)
            && (b.state == ReadChecksum && byte != b.cmd ==> r == (b.(state := WaitStart, checksum := byte), []))
            && (r.1 != [] ==> b.state == ReadChecksum && byte == b.cmd == CmdRead)
  {
    SingleByteChecksum(b.cmd);
  }

  predicate WellFormedSensing(sensed: seq<seq<int>>)
  {
    forall k :: 0 <= k < |sensed| ==> |sensed[k]| == SensorCount
  }

  /** `processSerial` over a whole input: the final state and everything sent.
      `sensed[k]` is what the sensors read if byte k completes a calibration. */
  function Process(b: Board, input: seq<Byte>, sensed: seq<seq<int>>): (r: (Board, seq<Byte>))
    requires b.Valid() && |sensed| == |input| && WellFormedSensing(sensed)
    ensures r.0.Valid()
    decreases |input|
  {
    if input == [] then (b, [])
    else
      var n := |input| - 1;
      Step(Process(b, input[..n], sensed[..n]), input[n], sensed[n])
  }

  /** One more byte after a run that left board `r.0` and sent `r.1`. */
  function Step(r: (Board, seq<Byte>), byte: Byte, sensed: seq<int>): (r': (Board, seq<Byte>))
    requires r.0.Valid() && |sensed| == SensorCount
    ensures r'.0.Valid()
  {
    var last := Feed(r.0, byte, sensed);
    (last.0, r.1 + last.1)
  }

  /** What was sent earlier stays in front of what a step sends. */
  lemma StepKeepsOutput(b: Board, earlier: seq<Byte>, later: seq<Byte>, byte: Byte, sensed: seq<int>)
    requires b.Valid() && |sensed| == SensorCount
    ensures Step((b, earlier + later), byte, sensed)
         == (Step((b, later), byte, sensed).0, earlier + Step((b, later), byte, sensed).1)
  {
    var last := Feed(b, byte, sensed);
    assert (earlier + later) + last.1 == earlier + (later + last.1);
  }

  /** Processing one more byte is one more `Feed`. */
  lemma ProcessSnoc(b: Board, input: seq<Byte>, sensed: seq<seq<int>>, byte: Byte, s: seq<int>)
    requires b.Valid() && |sensed| == |input| && WellFormedSensing(sensed) && |s| == SensorCount
    ensures WellFormedSensing(sensed + [s])
    ensures Process(b, input + [byte], sensed + [s]) == Step(Process(b, input, sensed), byte, s)
  {
    assert (input + [byte])[..|input|] == input;
    assert (sensed + [s])[..|input|] == sensed;
  }

  lemma AppendLast<T>(x: seq<T>, y: seq<T>)
    requires y != []
    ensures x + y == (x + y[..|y| - 1]) + [y[|y| - 1]]
  {
    assert y == y[..|y| - 1] + [y[|y| - 1]];
  }

  /** Processing a concatenation is processing one part after the other. */
  lemma {:induction false} ProcessAppend(b: Board, x: seq<Byte>, y: seq<Byte>, sx: seq<seq<int>>, sy: seq<seq<int>>)
    requires b.Valid() && |sx| == |x| && |sy| == |y| && WellFormedSensing(sx) && WellFormedSensing(sy)
    ensures WellFormedSensing(sx + sy)
    ensures Process(b, x + y, sx + sy)
         == (Process(Process(b, x, sx).0, y, sy).0, Process(b, x, sx).1 + Process(Process(b, x, sx).0, y, sy).1)
    decreases |y|
  {
    var first := Process(b, x, sx);
    if y == [] {
      assert x + y == x && sx + sy == sx;
      assert first.1 + [] == first.1;
    } else {
      var n := |y| - 1;
      AppendLast(x, y);
      AppendLast(sx, sy);
      ProcessAppend(b, x, y[..n], sx, sy[..n]);
      var mid := Process(first.0, y[..n], sy[..n]);
      ProcessSnoc(b, x + y[..n], sx + sy[..n], y[n], sy[n]);
      StepKeepsOutput(mid.0, first.1, mid.1, y[n], sy[n]);
      assert y[..n] + [y[n]] == y && sy[..n] + [sy[n]] == sy;
      ProcessSnoc(first.0, y[..n], sy[..n], y[n], sy[n]);
    }
  }

  /** In `WAIT_START` bytes other than 0xAA are dropped without any effect. */
  lemma {:induction false} NoStartByteNoEffect(b: Board, input: seq<Byte>, sensed: seq<seq<int>>)
    requires b.Valid() && b.state == WaitStart && |sensed| == |input| && WellFormedSensing(sensed)
    requires StartByte !in input
    ensures Process(b, input, sensed) == (b, [])
    decreases |input|
  {
    if input != [] {
      var n := |input| - 1;
      assert StartByte !in input[..n] by {
        assert forall x :: x in input[..n] ==> x in input;
      }
      NoStartByteNoEffect(b, input[..n], sensed[..n]);
      assert input[n] in input;
      assert Feed(b, input[n], sensed[n]) == (b, []);
      var r := Process(b, input, sensed);
      assert r.0 == b;
      assert r.1 == [];
    }
  }

  /** A three-byte frame from `WAIT_START` is one `Feed` of its checksum byte
      after the framer has taken the start and command bytes. */
  lemma FrameSteps(b: Board, c: Byte, k: Byte, sensed: seq<seq<int>>)
    requires b.Valid() && b.state == WaitStart && |sensed| == 3 && WellFormedSensing(sensed)
    ensures Process(b, [StartByte, c, k], sensed) == Feed(b.(state := ReadChecksum, cmd := c), k, sensed[2])
  {
    var input := [StartByte, c, k];
    assert input[..1][..0] == [] && sensed[..1][..0] == [];
    assert input[..2][..1] == input[..1] == [StartByte] && sensed[..2][..1] == sensed[..1];
    assert input[..2][1] == c && input[2] == k;
    var r0 := Process(b, input[..1][..0], sensed[..1][..0]);
    assert r0 == (b, []);
    assert input[..1][0] == StartByte;
    var r1 := Process(b, input[..1], sensed[..1]);
    assert r1 == (Feed(r0.0, input[..1][0], sensed[..1][0]).0, r0.1 + Feed(r0.0, input[..1][0], sensed[..1][0]).1);
    assert Feed(b, StartByte, sensed[0]) == (b.(state := ReadCmd), []);
    assert r1.0 == b.(state := ReadCmd) && r1.1 == [];
    var r2 := Process(b, input[..2], sensed[..2]);
    assert r2.0 == b.(state := ReadChecksum, cmd := c) && r2.1 == [];
    var r3 := Process(b, input, sensed);
    assert r3.0 == Feed(r2.0, k, sensed[2]).0 && r3.1 == [] + Feed(r2.0, k, sensed[2]).1;
    assert [] + Feed(r2.0, k, sensed[2]).1 == Feed(r2.0, k, sensed[2]).1;
  }

  /** The read frame AA 02 02 answers with the response packet and clears the flags. */
  lemma ReadFrame(b: Board, sensed: seq<seq<int>>)
    requires b.Valid() && b.state == WaitStart && |sensed| == 3 && WellFormedSensing(sensed)
    ensures Process(b, [StartByte, CmdRead, CmdRead], sensed)
         == (b.(cmd := CmdRead, checksum := CmdRead, flags := 0), ReadPacket(b.positions, b.offsets, b.flags))
  {
    FrameSteps(b, CmdRead, CmdRead, sensed);
    SingleByteChecksum(CmdRead);
  }

  /** The calibration frame AA 01 01 calibrates against the current readings. */
  lemma CalibrationFrame(b: Board, sensed: seq<seq<int>>)
    requires b.Valid() && b.state == WaitStart && |sensed| == 3 && WellFormedSensing(sensed)
    ensures Process(b, [StartByte, CmdCalibration, CmdCalibration], sensed)
         == (Calibrated(b.(cmd := CmdCalibration, checksum := CmdCalibration), sensed[2]), [])
  {
    FrameSteps(b, CmdCalibration, CmdCalibration, sensed);
    SingleByteChecksum(CmdCalibration);
  }

  /** A frame with a wrong checksum or an unknown command changes nothing but
      the framer's registers, sends nothing, and the framer is back in `WAIT_START`. */
  lemma IgnoredFrame(b: Board, c: Byte, k: Byte, sensed: seq<seq<int>>)
    requires b.Valid() && b.state == WaitStart && |sensed| == 3 && WellFormedSensing(sensed)
    requires k != c || (c != CmdCalibration && c != CmdRead)
    ensures Process(b, [StartByte, c, k], sensed) == (b.(cmd := c, checksum := k), [])
  {
    FrameSteps(b, c, k, sensed);
    SingleByteChecksum(c);
  }

  /** Everything `processSerial` sends is made of whole 15-byte packets. */
  lemma {:induction false} OutputIsWholePackets(b: Board, input: seq<Byte>, sensed: seq<seq<int>>)
    requires b.Valid() && |sensed| == |input| && WellFormedSensing(sensed)
    ensures |Process(b, input, sensed).1| % PacketLength == 0
    decreases |input|
  {
    if input != [] {
      var n := |input| - 1;
      OutputIsWholePackets(b, input[..n], sensed[..n]);
    }
  }

  // ---------------------------------------------------------------------------
  // The firmware itself

  /** The firmware's globals (`positions`, `calibrationOffsets`, `errorFlags`),
      the statics of `processSerial` (`state`, `cmd`, `checksum`) and the EEPROM. */
  class SensorBoard {
    var state: FrameState
    var cmd: Byte
    var checksum: Byte
    var errorFlags: bv8
    const positions: array<int>
    const calibrationOffsets: array<int>
    /** Slot i holds the offset stored at address `i * sizeof(int)`. */
    const eeprom: array<int>

    ghost predicate Valid()
      reads this
    {
      && positions.Length == SensorCount
      && calibrationOffsets.Length == SensorCount
      && eeprom.Length == SensorCount
      && positions != calibrationOffsets && positions != eeprom && calibrationOffsets != eeprom
    }

    ghost function Model(): (b: Board)
      reads this, positions, calibrationOffsets, eeprom
      ensures Valid() ==> b.Valid()
    {
      Board(state, cmd, checksum, positions[..], calibrationOffsets[..], errorFlags, eeprom[..])
    }

    /** Power-on: the globals are zero, the EEPROM holds `stored`. */
    constructor (stored: seq<int>)
      requires |stored| == SensorCount
      ensures Valid() && Model() == PowerOn(stored)
    {
      state, cmd, checksum, errorFlags := WaitStart, 0, 0, 0;
      positions := new int[SensorCount](_ => 0);
      calibrationOffsets := new int[SensorCount](_ => 0);
      eeprom := new int[SensorCount](i requires 0 <= i < SensorCount => stored[i]);
      new;
      assert positions[..] == Zeros();
      assert calibrationOffsets[..] == Zeros();
      assert eeprom[..] == stored;
    }

    /** `setup`: load the calibration offsets from EEPROM. */
    method Setup()
      requires Valid()
      modifies calibrationOffsets
      ensures Valid() && Model() == SetUp(old(Model()))
    {
      for i := 0 to SensorCount
        invariant forall k :: 0 <= k < i ==> calibrationOffsets[k] == eeprom[k]
      {
        calibrationOffsets[i] := eeprom[i];
      }
      assert calibrationOffsets[..] == eeprom[..];
    }

    /** `updatePositions`. */
    method UpdatePositions(readings: seq<int>)
      requires Valid() && |readings| == SensorCount
      modifies this`errorFlags, positions
      ensures Valid() && Model() == PositionsUpdated(old(Model()), readings)
    {
      for i := 0 to SensorCount
        invariant errorFlags == RaiseFlags(old(errorFlags), readings, i)
        invariant forall k :: 0 <= k < i ==> positions[k] == Sanitized(readings)[k]
      {
        var angle := readings[i];
        if angle == SensorError {
          errorFlags := errorFlags | Bit(i);
          positions[i] := 0;
        } else {
          positions[i] := angle;
        }
      }
      assert positions[..] == Sanitized(readings);
    }

    /** `handleCalibration`. */
    method HandleCalibration(readings: seq<int>)
      requires Valid() && |readings| == SensorCount
      modifies this`errorFlags, calibrationOffsets, eeprom
      ensures Valid() && Model() == Calibrated(old(Model()), readings)
    {
      ghost var stored := Stored(eeprom[..], readings);
      for i := 0 to SensorCount
        invariant errorFlags == RaiseFlags(old(errorFlags), readings, i)
        invariant forall k :: 0 <= k < i ==> calibrationOffsets[k] == Sanitized(readings)[k]
        invariant forall k :: 0 <= k < i ==> eeprom[k] == stored[k]
        invariant forall k :: i <= k < SensorCount ==> eeprom[k] == old(eeprom[k])
      {
        var angle := readings[i];
        if angle == SensorError {
          errorFlags := errorFlags | Bit(i);
          calibrationOffsets[i] := 0;
        } else {
          calibrationOffsets[i] := angle;
          eeprom[i] := angle;
        }
      }
      assert calibrationOffsets[..] == Sanitized(readings);
      assert eeprom[..] == stored;
    }

    /** `handleRead`: fill the 15-byte packet, send it, clear the flags. */
    method HandleRead() returns (packet: seq<Byte>)
      requires Valid()
      modifies this`errorFlags
      ensures Valid() && (Model(), packet) == Read(old(Model()))
    {
      var buffer := new Byte[PacketLength];
      var idx := 0;
      buffer[idx] := StartByte;
      idx := idx + 1;
      for i := 0 to SensorCount
        invariant idx == 1 + 2 * i && errorFlags == old(errorFlags)
        invariant buffer[0] == StartByte
        invariant forall k :: 0 <= k < 2 * i ==>
                    buffer[1 + k] == PayloadByte(positions[..], calibrationOffsets[..], k)
      {
        var adjusted := Int16(positions[i] - calibrationOffsets[i]);
        buffer[idx] := HighByte(adjusted);
        idx := idx + 1;
        buffer[idx] := LowByte(adjusted);
        idx := idx + 1;
      }
      buffer[idx] := errorFlags as int;
      idx := idx + 1;
      var body := PacketBody(positions[..], calibrationOffsets[..], errorFlags);
      assert buffer[1..idx] == body;
      var sum := CalculateChecksum(buffer[1..idx]);
      buffer[idx] := sum;
      idx := idx + 1;
      packet := buffer[..idx];
      assert packet == ReadPacket(positions[..], calibrationOffsets[..], errorFlags);
      errorFlags := 0;
    }

    /** One iteration of the `while (Serial.available())` loop of
        `processSerial`: `sensed` is what the sensors read if this byte
        completes a calibration command. */
    method ProcessByte(byte: Byte, sensed: seq<int>) returns (out: seq<Byte>)
      requires Valid() && |sensed| == SensorCount
      modifies this, calibrationOffsets, eeprom
      ensures Valid() && (Model(), out) == Feed(old(Model()), byte, sensed)
    {
      out := [];
      match state {
        case WaitStart =>
          if byte == StartByte {
            state := ReadCmd;
          }
        case ReadCmd =>
          cmd := byte;
          state := ReadChecksum;
        case ReadChecksum =>
          checksum := byte;
          var calcChecksum := CalculateChecksum([cmd]);
          SingleByteChecksum(cmd);
          if checksum == calcChecksum {
            if cmd == CmdCalibration {
              HandleCalibration(sensed);
            } else if cmd == CmdRead {
              out := HandleRead();
            }
          }
          state := WaitStart;
      }
    }

    /** `processSerial`: consume the available bytes one at a time. */
    method ProcessSerial(input: seq<Byte>, sensed: seq<seq<int>>) returns (sent: seq<Byte>)
      requires Valid() && |sensed| == |input| && WellFormedSensing(sensed)
      modifies this, calibrationOffsets, eeprom
      ensures Valid() && (Model(), sent) == Process(old(Model()), input, sensed)
    {
      sent := [];
      var k := 0;
      while k < |input|
        invariant 0 <= k <= |input| && Valid()
        invariant (Model(), sent) == Process(old(Model()), input[..k], sensed[..k])
      {
        var out := ProcessByte(input[k], sensed[k]);
        sent := sent + out;
        assert input[..k + 1] == input[..k] + [input[k]] && sensed[..k + 1] == sensed[..k] + [sensed[k]];
        ProcessSnoc(old(Model()), input[..k], sensed[..k], input[k], sensed[k]);
        k := k + 1;
      }
      assert input[..k] == input && sensed[..k] == sensed;
    }

    /** The firmware's `loop`: serve the host, then sample the sensors. */
    method Loop(input: seq<Byte>, sensed: seq<seq<int>>, readings: seq<int>) returns (sent: seq<Byte>)
      requires Valid() && |sensed| == |input| && WellFormedSensing(sensed) && |readings| == SensorCount
      modifies this, positions, calibrationOffsets, eeprom
      ensures Valid()
      ensures var (b, out) := Process(old(Model()), input, sensed);
              Model() == PositionsUpdated(b, readings) && sent == out
    {
      sent := ProcessSerial(input, sensed);
      UpdatePositions(readings);
    }
  }
}
