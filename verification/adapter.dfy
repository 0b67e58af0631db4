/** The controller report that the GameCube USB adapter delivers for one port.

    A report is nine bytes: a status byte, two bytes of bit-packed digital
    buttons, four analog stick axes and two analog trigger values. The two
    button bytes are unions of a raw byte and one-bit flags; the flags are
    allocated least significant bit first, so `A` is bit 0 of the first
    button byte and `Start` is bit 0 of the second.
 */
module Adapter {

  /** An unsigned 8-bit value. */
  type Byte = b: int | 0 <= b < 256

  /** Number of bytes in one controller report. */
  const ReportSize: nat := 9

  /** `b` shifted right by `k` places. */
  function ShiftRight(b: Byte, k: nat): int
    requires k < 8
  {
    if k == 0 then b
    else if k == 1 then b / 2
    else if k == 2 then b / 4
    else if k == 3 then b / 8
    else if k == 4 then b / 16
    else if k == 5 then b / 32
    else if k == 6 then b / 64
    else b / 128
  }

  /** Bit `k` of `b`, counting from the least significant bit. */
  predicate Bit(b: Byte, k: nat)
    requires k < 8
  {
    ShiftRight(b, k) % 2 == 1
  }

  /** A flag as a binary digit. */
  function Digit(flag: bool): int
  {
    if flag then 1 else 0
  }

  /** The first button byte: face buttons in bits 0..3, d-pad in bits 4..7. */
  datatype Buttons1 = Buttons1(
    a: bool, b: bool, x: bool, y: bool,
    dpadLeft: bool, dpadRight: bool, dpadDown: bool, dpadUp: bool)

  /** The second button byte: Start, Z, R and L in bits 0..3. Bits 4..7 carry
      no flag. */
  datatype Buttons2 = Buttons2(start: bool, z: bool, r: bool, l: bool)

  /** Reads the eight flags of the first button byte. Nothing is lost: the
      flags, weighted 1, 2, 4, ..., 128 in bit order, sum to the byte. */
  function DecodeButtons1(byte: Byte): (f: Buttons1)
    ensures byte == Digit(f.a) + 2 * Digit(f.b) + 4 * Digit(f.x) + 8 * Digit(f.y)
                    + 16 * Digit(f.dpadLeft) + 32 * Digit(f.dpadRight)
                    + 64 * Digit(f.dpadDown) + 128 * Digit(f.dpadUp)
  {
    ByteFromBits(byte);
    Buttons1(Bit(byte, 0), Bit(byte, 1), Bit(byte, 2), Bit(byte, 3),
             Bit(byte, 4), Bit(byte, 5), Bit(byte, 6), Bit(byte, 7))
  }

  /** Packs the eight flags of the first button byte back into a byte, from
      which they read back unchanged. */
  function EncodeButtons1(f: Buttons1): (byte: Byte)
    ensures DecodeButtons1(byte) == f
  {
    DecodeWeightedFlags1(f);
    Digit(f.a) + 2 * Digit(f.b) + 4 * Digit(f.x) + 8 * Digit(f.y)
    + 16 * Digit(f.dpadLeft) + 32 * Digit(f.dpadRight)
    + 64 * Digit(f.dpadDown) + 128 * Digit(f.dpadUp)
  }

  /** The flags weighted 1, 2, 4, ..., 128 form a byte whose bits are those
      flags. */
  lemma DecodeWeightedFlags1(f: Buttons1)
    ensures var byte := Digit(f.a) + 2 * Digit(f.b) + 4 * Digit(f.x) + 8 * Digit(f.y)
                        + 16 * Digit(f.dpadLeft) + 32 * Digit(f.dpadRight)
                        + 64 * Digit(f.dpadDown) + 128 * Digit(f.dpadUp);
      0 <= byte < 256 && DecodeButtons1(byte) == f
  {
    DigitsOfSum(Digit(f.a), Digit(f.b), Digit(f.x), Digit(f.y),
                Digit(f.dpadLeft), Digit(f.dpadRight), Digit(f.dpadDown), Digit(f.dpadUp));
  }

  /** Reads the four flags of the second button byte; the reserved high
      nibble is not read. The flags, weighted 1, 2, 4, 8, sum to the low
      nibble. */
  function DecodeButtons2(byte: Byte): (f: Buttons2)
    ensures byte % 16 == Digit(f.start) + 2 * Digit(f.z) + 4 * Digit(f.r) + 8 * Digit(f.l)
  {
    ByteFromBits(byte);
    Buttons2(Bit(byte, 0), Bit(byte, 1), Bit(byte, 2), Bit(byte, 3))
  }

  /** Packs the four flags of the second button byte into its low nibble,
      leaving the reserved bits clear; the flags read back unchanged. */
  function EncodeButtons2(f: Buttons2): (byte: Byte)
    ensures byte < 16
    ensures DecodeButtons2(byte) == f
  {
    DigitsOfSum(Digit(f.start), Digit(f.z), Digit(f.r), Digit(f.l), 0, 0, 0, 0);
    Digit(f.start) + 2 * Digit(f.z) + 4 * Digit(f.r) + 8 * Digit(f.l)
  }

  /** Packing the flags read from a first button byte gives the byte back. */
  lemma Buttons1ByteRoundTrip(byte: Byte)
    ensures EncodeButtons1(DecodeButtons1(byte)) == byte
  {
  }

  /** Reading the flags of a packed first button byte gives the flags back. */
  lemma Buttons1FlagsRoundTrip(f: Buttons1)
    ensures DecodeButtons1(EncodeButtons1(f)) == f
  {
  }

  /** Packing the flags read from a second button byte gives back its low
      nibble. */
  lemma Buttons2ByteRoundTrip(byte: Byte)
    ensures EncodeButtons2(DecodeButtons2(byte)) == byte % 16
  {
  }

  /** Reading the flags of a packed second button byte gives the flags back,
      and the packed byte leaves the reserved bits clear. */
  lemma Buttons2FlagsRoundTrip(f: Buttons2)
    ensures EncodeButtons2(f) < 16
    ensures DecodeButtons2(EncodeButtons2(f)) == f
  {
  }

  /** A byte is the weighted sum of its bits; its low nibble is the weighted
      sum of bits 0..3. */
  lemma ByteFromBits(b: Byte)
    ensures b % 16 == Digit(Bit(b, 0)) + 2 * Digit(Bit(b, 1)) + 4 * Digit(Bit(b, 2)) + 8 * Digit(Bit(b, 3))
    ensures b == b % 16 + 16 * Digit(Bit(b, 4)) + 32 * Digit(Bit(b, 5))
                        + 64 * Digit(Bit(b, 6)) + 128 * Digit(Bit(b, 7))
  {
    assert b / 4 == b / 2 / 2;
    assert b / 8 == b / 4 / 2;
    assert b / 16 == b / 8 / 2;
    assert b / 32 == b / 16 / 2;
    assert b / 64 == b / 32 / 2;
    assert b / 128 == b / 64 / 2;
    assert b == b % 2 + 2 * ((b / 2) % 2) + 4 * ((b / 4) % 2) + 8 * ((b / 8) % 2) + 16 * (b / 16);
    assert b / 16 == (b / 16) % 2 + 2 * ((b / 32) % 2) + 4 * ((b / 64) % 2) + 8 * (b / 128);
  }

  /** The bits of `n0 + 2*n1 + ... + 128*n7` are `n0 .. n7`. */
  lemma DigitsOfSum(n0: int, n1: int, n2: int, n3: int, n4: int, n5: int, n6: int, n7: int)
    requires 0 <= n0 < 2 && 0 <= n1 < 2 && 0 <= n2 < 2 && 0 <= n3 < 2
    requires 0 <= n4 < 2 && 0 <= n5 < 2 && 0 <= n6 < 2 && 0 <= n7 < 2
    ensures var b := n0 + 2 * n1 + 4 * n2 + 8 * n3 + 16 * n4 + 32 * n5 + 64 * n6 + 128 * n7;
      && 0 <= b < 256
      && (Bit(b, 0) <==> n0 == 1) && (Bit(b, 1) <==> n1 == 1)
      && (Bit(b, 2) <==> n2 == 1) && (Bit(b, 3) <==> n3 == 1)
      && (Bit(b, 4) <==> n4 == 1) && (Bit(b, 5) <==> n5 == 1)
      && (Bit(b, 6) <==> n6 == 1) && (Bit(b, 7) <==> n7 == 1)
  {
    var b := n0 + 2 * n1 + 4 * n2 + 8 * n3 + 16 * n4 + 32 * n5 + 64 * n6 + 128 * n7;
    assert b / 2 == n1 + 2 * n2 + 4 * n3 + 8 * n4 + 16 * n5 + 32 * n6 + 64 * n7;
    assert b / 4 == n2 + 2 * n3 + 4 * n4 + 8 * n5 + 16 * n6 + 32 * n7;
    assert b / 8 == n3 + 2 * n4 + 4 * n5 + 8 * n6 + 16 * n7;
    assert b / 16 == n4 + 2 * n5 + 4 * n6 + 8 * n7;
    assert b / 32 == n5 + 2 * n6 + 4 * n7;
    assert b / 64 == n6 + 2 * n7;
    assert b / 128 == n7;
  }

  /** One decoded controller report. */
  datatype ControllerState = ControllerState(
    status: Byte,
    buttons1: Buttons1,
    buttons2: Buttons2,
    leftStickX: Byte, leftStickY: Byte,
    rightStickX: Byte, rightStickY: Byte,
    leftTrigger: Byte, rightTrigger: Byte)

  /** A well-formed report: exactly nine values, each an unsigned byte. */
  predicate IsReport(report: seq<int>)
  {
    |report| == ReportSize && forall i :: 0 <= i < |report| ==> 0 <= report[i] < 256
  }

  /** Reinterprets a raw report as a controller state, field by field in
      layout order. */
  function Decode(report: seq<int>): (s: ControllerState)
    requires IsReport(report)
    ensures s.status == report[0]
    ensures EncodeButtons1(s.buttons1) == report[1]
    ensures EncodeButtons2(s.buttons2) == report[2] % 16
    ensures s.leftStickX == report[3] && s.leftStickY == report[4]
    ensures s.rightStickX == report[5] && s.rightStickY == report[6]
    ensures s.leftTrigger == report[7] && s.rightTrigger == report[8]
  {
    ControllerState(
      report[0],
      DecodeButtons1(report[1]),
      DecodeButtons2(report[2]),
      report[3], report[4],
      report[5], report[6],
      report[7], report[8])
  }

  /** Lays a controller state out as a report, the reserved bits of the
      second button byte left clear. */
  function Encode(s: ControllerState): (report: seq<int>)
    ensures IsReport(report)
    ensures report[2] < 16
    ensures Decode(report) == s
  {
    [s.status, EncodeButtons1(s.buttons1), EncodeButtons2(s.buttons2),
     s.leftStickX, s.leftStickY, s.rightStickX, s.rightStickY,
     s.leftTrigger, s.rightTrigger]
  }

  /** Decoding loses nothing but the reserved high nibble of byte 2. */
  lemma EncodeDecode(report: seq<int>)
    requires IsReport(report)
    ensures Encode(Decode(report)) == report[2 := report[2] % 16]
  {
  }

  /** Bit `k` of the first button byte is, in order, A, B, X, Y, DpadLeft,
      DpadRight, DpadDown, DpadUp: a byte with only that bit set raises only
      that flag. */
  lemma Buttons1BitPositions()
    ensures DecodeButtons1(1) == Buttons1(true, false, false, false, false, false, false, false)
    ensures DecodeButtons1(2) == Buttons1(false, true, false, false, false, false, false, false)
    ensures DecodeButtons1(4) == Buttons1(false, false, true, false, false, false, false, false)
    ensures DecodeButtons1(8) == Buttons1(false, false, false, true, false, false, false, false)
    ensures DecodeButtons1(16) == Buttons1(false, false, false, false, true, false, false, false)
    ensures DecodeButtons1(32) == Buttons1(false, false, false, false, false, true, false, false)
    ensures DecodeButtons1(64) == Buttons1(false, false, false, false, false, false, true, false)
    ensures DecodeButtons1(128) == Buttons1(false, false, false, false, false, false, false, true)
  {
  }

  /** Bits 0..3 of the second button byte are Start, Z, R, L. */
  lemma Buttons2BitPositions()
    ensures DecodeButtons2(1) == Buttons2(true, false, false, false)
    ensures DecodeButtons2(2) == Buttons2(false, true, false, false)
    ensures DecodeButtons2(4) == Buttons2(false, false, true, false)
    ensures DecodeButtons2(8) == Buttons2(false, false, false, true)
  {
  }

  /** No flag exposes bits 4..7 of the second button byte: bytes with the
      same low nibble decode alike. */
  lemma Buttons2IgnoresHighBits(b1: Byte, b2: Byte)
    requires b1 % 16 == b2 % 16
    ensures DecodeButtons2(b1) == DecodeButtons2(b2)
  {
  }

  /** The report with every byte zero. */
  const ZeroReport: seq<int> := [0, 0, 0, 0, 0, 0, 0, 0, 0]

  /** An all-zero report decodes to every flag released and every axis 0. */
  lemma DecodeZeroReport()
    ensures IsReport(ZeroReport)
    ensures Decode(ZeroReport) == ControllerState(0, Buttons1(false, false, false, false, false, false, false, false),
                                                  Buttons2(false, false, false, false), 0, 0, 0, 0, 0, 0)
  {
    assert DecodeButtons1(0) == Buttons1(false, false, false, false, false, false, false, false);
    assert DecodeButtons2(0) == Buttons2(false, false, false, false);
  }
}
