/**
 * The wire codec of the DG-LAB Coyote's BLE protocol (toys/estim/coyote/dg_encoding.py).
 *
 * Python's `x >> k` and `x & (2^k - 1)` on an int are `x / 2^k` and `x % 2^k` here: both floor,
 * and Dafny's Euclidean `/` and `%` agree with flooring for a positive divisor, so the encoders are
 * modelled exactly on every int, negative ones included. Where the source ORs two bit fields that
 * do not overlap, the model adds them.
 */
module Codec {

  /** One element of a Python `bytes` object. */
  type byte = b: int | 0 <= b < 256

  /** The widths of the fields the two encoders accept. */
  const PowerLimit: int := 2048     // 11 bits per channel power
  const PulseLimit: int := 32       // 5 bits
  const PauseLimit: int := 1024     // 10 bits
  const AmplitudeLimit: int := 32   // 5 bits

  /**
   * encode_power: channel A's 11 bits go to the high end of a 22-bit word, channel B's to the low
   * end, and the three bytes of that word are emitted least significant first.
   */
  function EncodePower(powA: int, powB: int): (out: seq<byte>)
    ensures |out| == 3 && out[2] < 64
  {
    var b0 := (powA / 32) % 64;
    var b1 := (powA % 32) * 8 + (powB % 2048) / 256;
    var b2 := powB % 256;
    [b2, b1, b0]
  }

  /** The channel-A power a 3-byte power message carries: `(out[2] << 5) | (out[1] >> 3)`. */
  function PowerA(out: seq<byte>): int
    requires |out| == 3
  {
    (out[2] as int) * 32 + (out[1] as int) / 8
  }

  /** The channel-B power a 3-byte power message carries: `((out[1] & 7) << 8) | out[0]`. */
  function PowerB(out: seq<byte>): int
    requires |out| == 3
  {
    ((out[1] as int) % 8) * 256 + out[0] as int
  }

  /** The 16-bit word of encode_pattern: amplitude's low bit, then 10 bits of pause, then 5 of pulse. */
  function PatternWord(ax: int, ay: int, az: int): (w: int)
    ensures 0 <= w < 65536
  {
    (az % 2) * 32768 + (ay % 1024) * 32 + ax % 32
  }

  /**
   * encode_pattern: the 16-bit word split little-endian (`struct.pack("H", ...)`), followed by the
   * upper four bits of the 5-bit amplitude.
   */
  function EncodePattern(ax: int, ay: int, az: int): (out: seq<byte>)
    ensures |out| == 3 && out[2] < 16
  {
    var w := PatternWord(ax, ay, az);
    [w % 256, w / 256, (az % 32) / 2]
  }

  /** The pulse a pattern message carries: `out[0] & 31`. */
  function PulseOf(out: seq<byte>): int
    requires |out| == 3
  {
    out[0] % 32
  }

  /** The pause a pattern message carries: `((out[1] << 8 | out[0]) >> 5) & 1023`. */
  function PauseOf(out: seq<byte>): int
    requires |out| == 3
  {
    (((out[1] as int) * 256 + out[0] as int) / 32) % 1024
  }

  /** The amplitude a pattern message carries: `(out[2] << 1) | (out[1] >> 7)`. */
  function AmplitudeOf(out: seq<byte>): int
    requires |out| == 3
  {
    (out[2] as int) * 2 + (out[1] as int) / 128
  }

  /** Quotient and remainder by a power of two the codec uses are determined by `x == q * d + r` with `0 <= r < d`. */
  lemma DivMod(x: int, d: int, q: int, r: int)
    requires d == 2 || d == 8 || d == 32 || d == 64 || d == 128 || d == 256 || d == 1024 || d == 2048
    requires 0 <= r < d && x == q * d + r
    ensures x / d == q && x % d == r
  {
  }

  // ---------------------------------------------------------------------------------------------
  // Power messages
  // ---------------------------------------------------------------------------------------------

  /** Decoding an encoded power message gives back both channel powers. */
  lemma EncodePowerRoundTrip(powA: int, powB: int)
    requires 0 <= powA < PowerLimit && 0 <= powB < PowerLimit
    ensures PowerA(EncodePower(powA, powB)) == powA
    ensures PowerB(EncodePower(powA, powB)) == powB
  {
    var out := EncodePower(powA, powB);
    DivMod(powB, 2048, 0, powB);
    DivMod(powA / 32, 64, 0, powA / 32);
    DivMod(out[1], 8, powA % 32, powB / 256);
  }

  /** Every 3-byte message whose last byte fits in 6 bits is the encoding of exactly one power pair. */
  lemma PowerMessageDecodes(out: seq<byte>)
    requires |out| == 3 && out[2] < 64
    ensures 0 <= PowerA(out) < PowerLimit && 0 <= PowerB(out) < PowerLimit
    ensures EncodePower(PowerA(out), PowerB(out)) == out
  {
    var a, b := PowerA(out), PowerB(out);
    DivMod(a, 32, out[2], out[1] / 8);
    DivMod(out[2], 64, 0, out[2]);
    DivMod(b, 256, out[1] % 8, out[0]);
    DivMod(b, 2048, 0, b);
    var enc := EncodePower(a, b);
    assert enc[0] == out[0] && enc[1] == out[1] && enc[2] == out[2];
  }

  /** Distinct valid power pairs never share a message. */
  lemma EncodePowerInjective(a1: int, b1: int, a2: int, b2: int)
    requires 0 <= a1 < PowerLimit && 0 <= b1 < PowerLimit
    requires 0 <= a2 < PowerLimit && 0 <= b2 < PowerLimit
    requires EncodePower(a1, b1) == EncodePower(a2, b2)
    ensures a1 == a2 && b1 == b2
  {
    EncodePowerRoundTrip(a1, b1);
    EncodePowerRoundTrip(a2, b2);
  }

  /** `(x >> 5) & 63` depends only on the low 11 bits of x. */
  lemma HighSixBits(x: int)
    ensures (x / 32) % 64 == ((x % 2048) / 32) % 64
  {
    var q, r := x / 2048, x % 2048;
    DivMod(x, 32, q * 64 + r / 32, r % 32);
    DivMod(q * 64 + r / 32, 64, q, r / 32);
    DivMod(r / 32, 64, 0, r / 32);
  }

  /** `x & mask` for a mask of k low bits, applied after an 11-bit mask, is the same mask. */
  lemma LowBitsOfLow11(x: int, m: int)
    requires m == 32 || m == 256
    ensures x % m == (x % 2048) % m
  {
    var q, r := x / 2048, x % 2048;
    if m == 32 {
      DivMod(x, 32, q * 64 + r / 32, r % 32);
    } else {
      DivMod(x, 256, q * 8 + r / 256, r % 256);
    }
  }

  /** Only the low 11 bits of each power take part in the encoding, for every int. */
  lemma EncodePowerLow11Bits(powA: int, powB: int)
    ensures EncodePower(powA, powB) == EncodePower(powA % PowerLimit, powB % PowerLimit)
  {
    var out, low := EncodePower(powA, powB), EncodePower(powA % PowerLimit, powB % PowerLimit);
    assert out[0] == low[0] by {
      LowBitsOfLow11(powB, 256);
    }
    assert out[1] == low[1] by {
      LowBitsOfLow11(powA, 32);
      DivMod(powB % 2048, 2048, 0, powB % 2048);
    }
    assert out[2] == low[2] by {
      HighSixBits(powA);
    }
  }

  /** The documented example `[1721, 83, [83, 200, 53], ...]`. */
  lemma EncodePowerGoldenVector()
    ensures EncodePower(1721, 83) == [83, 200, 53]
  {
  }

  /** Zero power on both channels is the all-zero message the connection self-test writes. */
  lemma EncodePowerZero()
    ensures EncodePower(0, 0) == [0, 0, 0]
  {
    assert (0 / 32) % 64 == 0 && (0 % 32) * 8 + (0 % 2048) / 256 == 0 && 0 % 256 == 0;
  }

  /** Full power on both channels. */
  lemma EncodePowerFull()
    ensures EncodePower(2047, 2047) == [255, 255, 63]
  {
  }

  // ---------------------------------------------------------------------------------------------
  // Pattern messages
  // ---------------------------------------------------------------------------------------------

  /** Decoding an encoded pattern message gives back pulse, pause and amplitude. */
  lemma EncodePatternRoundTrip(ax: int, ay: int, az: int)
    requires 0 <= ax < PulseLimit && 0 <= ay < PauseLimit && 0 <= az < AmplitudeLimit
    ensures PulseOf(EncodePattern(ax, ay, az)) == ax
    ensures PauseOf(EncodePattern(ax, ay, az)) == ay
    ensures AmplitudeOf(EncodePattern(ax, ay, az)) == az
  {
    var w := PatternWord(ax, ay, az);
    var out := EncodePattern(ax, ay, az);
    var bit, low := az % 2, ay * 32 + ax;
    DivMod(ay, 1024, 0, ay);
    DivMod(ax, 32, 0, ax);
    assert w == bit * 32768 + low;
    DivMod(w, 256, bit * 128 + low / 256, low % 256);
    // pulse: the low five bits of the first byte
    DivMod(low, 256, ay / 8, (ay % 8) * 32 + ax);
    DivMod((ay % 8) * 32 + ax, 32, ay % 8, ax);
    // pause: bits 5..14 of the word
    DivMod(w, 32, bit * 1024 + ay, ax);
    DivMod(bit * 1024 + ay, 1024, bit, ay);
    // amplitude: the top bit of the second byte below the upper four bits in the third
    DivMod(out[1], 128, bit, low / 256);
    DivMod(az, 32, 0, az);
    DivMod(az, 2, az / 2, bit);
  }

  /** Every 3-byte message whose last byte fits in 4 bits is the encoding of exactly one frame. */
  lemma PatternMessageDecodes(out: seq<byte>)
    requires |out| == 3 && out[2] < 16
    ensures 0 <= PulseOf(out) < PulseLimit && 0 <= PauseOf(out) < PauseLimit
    ensures 0 <= AmplitudeOf(out) < AmplitudeLimit
    ensures EncodePattern(PulseOf(out), PauseOf(out), AmplitudeOf(out)) == out
  {
    var ax, ay, az := PulseOf(out), PauseOf(out), AmplitudeOf(out);
    var w := (out[1] as int) * 256 + out[0] as int;
    var h: int, m: int := out[1] / 128, out[1] % 128;
    DivMod(out[0], 32, out[0] / 32, ax);
    DivMod(w, 32, h * 1024 + m * 8 + out[0] / 32, ax);
    DivMod(h * 1024 + m * 8 + out[0] / 32, 1024, h, m * 8 + out[0] / 32);
    DivMod(az, 2, out[2], h);
    DivMod(az, 32, 0, az);
    DivMod(ay, 1024, 0, ay);
    DivMod(ax, 32, 0, ax);
    assert PatternWord(ax, ay, az) == w;
    DivMod(w, 256, out[1], out[0]);
    var enc := EncodePattern(ax, ay, az);
    assert enc[0] == out[0] && enc[1] == out[1] && enc[2] == out[2];
  }

  /** Each field is masked to its width, so only the low bits of each input matter, for every int. */
  lemma EncodePatternMasksFields(ax: int, ay: int, az: int)
    ensures EncodePattern(ax, ay, az)
         == EncodePattern(ax % PulseLimit, ay % PauseLimit, az % AmplitudeLimit)
  {
    var az' := az % 32;
    DivMod(az, 2, (az / 32) * 16 + az' / 2, az' % 2);
    DivMod(az', 32, 0, az');
    DivMod(ay % 1024, 1024, 0, ay % 1024);
    DivMod(ax % 32, 32, 0, ax % 32);
    var out, low := EncodePattern(ax, ay, az), EncodePattern(ax % PulseLimit, ay % PauseLimit, az');
    assert PatternWord(ax, ay, az) == PatternWord(ax % PulseLimit, ay % PauseLimit, az');
    assert out[0] == low[0] && out[1] == low[1] && out[2] == low[2];
  }

  /** The documented example `[[8, 685, 26, [168, 85, 13], ...]`. */
  lemma EncodePatternGoldenVector()
    ensures EncodePattern(8, 685, 26) == [168, 85, 13]
  {
  }
}
