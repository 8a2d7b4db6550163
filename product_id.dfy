/** The manufacturer-specific formulas that fold the bytes read from the
    decoder into one `productID`, written with Java's int operators exactly
    as the source states them, and what each formula means when every
    operand is a CV byte. */
module ProductId {
  import opened JavaInt

  /** Java `value * 256 * ... * 256` with n factors of 256, each product
      narrowed to int as Java does. */
  function Times256(value: Int32, n: nat): Int32
  {
    if n == 0 then value else Mul(Times256(value, n - 1), 256)
  }

  /** `(productIDhigh << 8) | productIDlow` (Hornby, Harman). */
  function HighLowId(high: Int32, low: Int32): Int32
  {
    Or(Shl(high, 8), low)
  }

  /** `(productIDhigh * 256) + productIDlow` (QSI). */
  function QsiId(high: Int32, low: Int32): Int32
  {
    Add(Mul(high, 256), low)
  }

  /** `value + (productIDlow * 256) + (productIDhigh * 256 * 256)`
      (Train-O-Matic; value is CV508). */
  function TrainOMaticId(lowest: Int32, low: Int32, high: Int32): Int32
  {
    Add(Add(lowest, Times256(low, 1)), Times256(high, 2))
  }

  /** `((((highest << 8) | high) << 8) | low) << 8) | lowest` (DIY). */
  function DiyId(highest: Int32, high: Int32, low: Int32, lowest: Int32): Int32
  {
    Or(Shl(Or(Shl(Or(Shl(highest, 8), high), 8), low), 8), lowest)
  }

  /** `productIDlow | ((productIDhigh & 7) << 8) | (productIDhighest << 11)`
      (SoundTraxx: CV256, CV255, CV253). */
  function SoundTraxxId(low: Int32, high: Int32, highest: Int32): Int32
  {
    Or(Or(low, Shl(And(high, 7), 8)), Shl(highest, 11))
  }

  /** What ESU's four steps leave in productID: CV261, then `+ CV262 * 256`,
      `+ CV263 * 256 * 256` and `+ CV264 * 256 * 256 * 256`, each sum
      narrowed to int. */
  function EsuId(b261: Int32, b262: Int32, b263: Int32, b264: Int32): Int32
  {
    Add(Add(Add(b261, Times256(b262, 1)), Times256(b263, 2)), Times256(b264, 3))
  }

  /** TCS: CV249 (lowest), CV248 (low), CV111 (high), CV110 (highest), keyed
      by the model (CV7). */
  function TcsId(lowest: Int32, low: Int32, high: Int32, highest: Int32, model: Int32): Int32
  {
    if ((129 <= lowest <= 135) && low == 5) || model >= 5 then
      if lowest == 180 && model == 5 then
        Add(lowest, Times256(low, 1))
      else
        Add(Add(Add(lowest, Times256(low, 1)), Times256(high, 2)), Times256(highest, 3))
    else if ((129 <= lowest <= 135) || (170 <= lowest <= 172) || lowest == 180) && model == 4 then
      Add(lowest, Times256(low, 1))
    else
      lowest
  }

  // ---------------------------------------------------------------------
  // Shifts and products of one byte

  lemma Pow2Values()
    ensures Pow2(3) == 8 && Pow2(8) == 256 && Pow2(11) == 2048
  {
    assert Pow2(3) == 8;
    assert Pow2(8) == 256;
    assert Pow2(11) == 2048;
  }

  /** A byte times 256^n, for n <= 3, is its value placed n bytes up, with
      only the fourth place crossing into the sign bit. */
  lemma Times256Byte(b: Byte, n: nat)
    requires n <= 3
    ensures n == 0 ==> Times256(b, n) == b
    ensures n == 1 ==> Times256(b, n) == b * 256
    ensures n == 2 ==> Times256(b, n) == b * 65536
    ensures n == 3 ==> Times256(b, n) == Wrap(b * 16777216)
  {
    if n >= 1 {
      assert Times256(b, 1) == b * 256;
    }
    if n >= 2 {
      assert Times256(b, 2) == b * 65536;
    }
  }

  // ---------------------------------------------------------------------
  // The formulas on bytes, and their inverses

  /** Hornby and Harman: high byte then low byte; the two bytes can be read
      back from the result. */
  lemma HighLowIdBytes(high: Byte, low: Byte)
    ensures HighLowId(high, low) == high * 256 + low
    ensures HighLowId(high, low) / 256 == high && HighLowId(high, low) % 256 == low
  {
    ShlOrByte(high, low);
  }

  /** QSI: high byte then low byte, combined by arithmetic. */
  lemma QsiIdBytes(high: Byte, low: Byte)
    ensures QsiId(high, low) == high * 256 + low
    ensures QsiId(high, low) / 256 == high && QsiId(high, low) % 256 == low
  {
  }

  /** Train-O-Matic: a three-byte little-endian value (CV508 lowest). */
  lemma TrainOMaticIdBytes(cv508: Byte, cv509: Byte, cv510: Byte)
    ensures TrainOMaticId(cv508, cv509, cv510) == cv508 + 256 * cv509 + 65536 * cv510
    ensures TrainOMaticId(cv508, cv509, cv510) == LittleEndian([cv508, cv509, cv510])
    ensures ToBytes(TrainOMaticId(cv508, cv509, cv510), 3) == [cv508, cv509, cv510]
  {
    Times256Byte(cv509, 1);
    Times256Byte(cv510, 2);
    LittleEndianOf3(cv508, cv509, cv510);
    ToBytesLittleEndian([cv508, cv509, cv510]);
  }

  /** DIY: a four-byte big-endian value CV47..CV50; a CV47 of 128 or more
      lands in the sign bit, so the int is that value less 2^32. */
  lemma DiyIdBytes(cv47: Byte, cv48: Byte, cv49: Byte, cv50: Byte)
    ensures DiyId(cv47, cv48, cv49, cv50) == Wrap(LittleEndian([cv50, cv49, cv48, cv47]))
    ensures cv47 < 128 ==> DiyId(cv47, cv48, cv49, cv50) == 16777216 * cv47 + 65536 * cv48 + 256 * cv49 + cv50
    ensures ToBytes(Unsigned(DiyId(cv47, cv48, cv49, cv50)), 4) == [cv50, cv49, cv48, cv47]
  {
    var x := 16777216 * cv47 + 65536 * cv48 + 256 * cv49 + cv50;
    DiyIdSum(cv47, cv48, cv49, cv50);
    LittleEndianOf4(cv50, cv49, cv48, cv47);
    WrapHigh(x);
    FourBytesRoundTrip(cv50, cv49, cv48, cv47, DiyId(cv47, cv48, cv49, cv50));
  }

  lemma DiyIdSum(cv47: Byte, cv48: Byte, cv49: Byte, cv50: Byte)
    ensures DiyId(cv47, cv48, cv49, cv50) == Wrap(16777216 * cv47 + 65536 * cv48 + 256 * cv49 + cv50)
  {
    var a := cv47 * 256 + cv48;
    assert a < 0x1_0000;
    ShlOrByte(cv47, cv48);
    var b := a * 256 + cv49;
    assert b < 0x100_0000;
    ShlOrByte(a, cv49);
    assert DiyId(cv47, cv48, cv49, cv50) == Or(Shl(b, 8), cv50);
    DiyLastByte(b, cv50);
    assert b * 256 + cv50 == 16777216 * cv47 + 65536 * cv48 + 256 * cv49 + cv50;
  }

  /** The last step of the DIY formula: `(b << 8) | lowest`, which may carry
      into the sign bit. */
  lemma DiyLastByte(b: Int32, lowest: Byte)
    requires 0 <= b < 0x100_0000
    ensures Or(Shl(b, 8), lowest) == Wrap(b * 256 + lowest)
  {
    var c := b * 256;
    assert Shl(b, 8) == Wrap(c) by {
      Pow2Values();
    }
    UnsignedWrap(c);
    assert Unsigned(Wrap(c)) == c;
    Pow2Values();
    BitOrShifted(b, lowest, 8);
  }

  /** `(x << 8) | b` for a byte b and a non-negative x below 2^23 is
      `x * 256 + b`. */
  lemma ShlOrByte(x: Int32, b: Byte)
    requires 0 <= x < 0x80_0000
    ensures Or(Shl(x, 8), b) == x * 256 + b
  {
    ShlByte(x);
    OrLowByte(x, b);
  }

  /** `x << 8` for a non-negative x below 2^23. */
  lemma ShlByte(x: Int32)
    requires 0 <= x < 0x80_0000
    ensures Shl(x, 8) == x * 256
  {
    Pow2Values();
  }

  /** `(a * 256) | b` for a byte b is `a * 256 + b`. */
  lemma OrLowByte(a: nat, b: Byte)
    requires a < 0x80_0000
    ensures Or(a * 256, b) == a * 256 + b
  {
    Pow2Values();
    BitOrShifted(a, b, 8);
  }

  /** SoundTraxx: CV256 in bits 0-7, the low three bits of CV255 in bits
      8-10 and CV253 from bit 11; each part can be read back. */
  lemma SoundTraxxIdBytes(cv256: Byte, cv255: Byte, cv253: Byte)
    ensures SoundTraxxId(cv256, cv255, cv253) == cv256 + 256 * (cv255 % 8) + 2048 * cv253
    ensures SoundTraxxId(cv256, cv255, cv253) % 256 == cv256
    ensures (SoundTraxxId(cv256, cv255, cv253) / 256) % 8 == cv255 % 8
    ensures SoundTraxxId(cv256, cv255, cv253) / 2048 == cv253
  {
    SoundTraxxIdSum(cv256, cv255, cv253);
    var h := cv255 % 8;
    var r := cv256 + 256 * h + 2048 * cv253;
    DivModUnique(r, 256, h + 8 * cv253, cv256);
    DivModUnique(h + 8 * cv253, 8, cv253, h);
    DivModUnique(r, 2048, cv253, cv256 + 256 * h);
  }

  lemma SoundTraxxIdSum(cv256: Byte, cv255: Byte, cv253: Byte)
    ensures SoundTraxxId(cv256, cv255, cv253) == cv256 + 256 * (cv255 % 8) + 2048 * cv253
  {
    var h := cv255 % 8;
    assert And(cv255, 7) == h by {
      Pow2Values();
      BitAndLowMask(cv255, 3);
    }
    var y := h * 256 + cv256;
    assert Or(cv256, Shl(h, 8)) == y by {
      ShlByte(h);
      BitOrCommutes(cv256, h * 256);
      OrLowByte(h, cv256);
    }
    assert Or(y, Shl(cv253, 11)) == cv253 * 2048 + y by {
      Pow2Values();
      assert Shl(cv253, 11) == cv253 * 2048;
      BitOrCommutes(y, cv253 * 2048);
      BitOrShifted(cv253, y, 11);
    }
    assert SoundTraxxId(cv256, cv255, cv253) == Or(Or(cv256, Shl(h, 8)), Shl(cv253, 11));
  }

  /** ESU: the RailCom product ID, a four-byte little-endian value with
      CV261 lowest, narrowed to a signed int; the four bytes can be read back
      from the int's bit pattern. */
  lemma EsuIdBytes(b261: Byte, b262: Byte, b263: Byte, b264: Byte)
    ensures EsuId(b261, b262, b263, b264) == Wrap(LittleEndian([b261, b262, b263, b264]))
    ensures b264 < 128 ==> EsuId(b261, b262, b263, b264) == b261 + 256 * b262 + 65536 * b263 + 16777216 * b264
    ensures b264 >= 128 ==> EsuId(b261, b262, b263, b264) < 0
    ensures ToBytes(Unsigned(EsuId(b261, b262, b263, b264)), 4) == [b261, b262, b263, b264]
  {
    var x := b261 + 256 * b262 + 65536 * b263 + 16777216 * b264;
    var r := EsuId(b261, b262, b263, b264);
    EsuIdSum(b261, b262, b263, b264);
    assert r == Wrap(x);
    LittleEndianOf4(b261, b262, b263, b264);
    assert 0 <= x < TWO32 by {
      assert 16777216 * b264 <= 16777216 * 255;
    }
    if b264 >= 128 {
      assert x >= 16777216 * b264 >= TWO31;
      WrapHigh(x);
    }
    FourBytesRoundTrip(b261, b262, b263, b264, r);
  }

  lemma EsuIdSum(b261: Byte, b262: Byte, b263: Byte, b264: Byte)
    ensures EsuId(b261, b262, b263, b264) == Wrap(b261 + 256 * b262 + 65536 * b263 + 16777216 * b264)
  {
    Times256Byte(b262, 1);
    Times256Byte(b263, 2);
    Times256Byte(b264, 3);
    var low3 := b261 + 256 * b262 + 65536 * b263;
    assert Add(Add(b261, Times256(b262, 1)), Times256(b263, 2)) == low3;
    assert EsuId(b261, b262, b263, b264) == Wrap(low3 + Wrap(b264 * 16777216));
    WrapAdd(b264 * 16777216, low3);
  }

  /** A value between 2^31 and 2^32 narrows to a negative int. */
  lemma WrapHigh(x: int)
    ensures TWO31 <= x < TWO32 ==> Wrap(x) == x - TWO32
  {
  }

  /** TCS, on bytes: the four-byte little-endian value, the two-byte value or
      CV249 alone, selected by CV249, CV248 and the model. */
  lemma TcsIdBytes(lowest: Byte, low: Byte, high: Byte, highest: Byte, model: Int32)
    ensures var r := TcsId(lowest, low, high, highest, model);
      var wide := ((129 <= lowest <= 135) && low == 5) || model >= 5;
      var two := ((129 <= lowest <= 135) || (170 <= lowest <= 172) || lowest == 180) && model == 4;
      && (wide && lowest == 180 && model == 5 ==> r == lowest + 256 * low)
      && (wide && !(lowest == 180 && model == 5) ==> r == Wrap(LittleEndian([lowest, low, high, highest])))
      && (!wide && two ==> r == lowest + 256 * low)
      && (!wide && !two ==> r == lowest)
  {
    Times256Byte(low, 1);
    Times256Byte(high, 2);
    Times256Byte(highest, 3);
    WrapAdd(highest * 16777216, lowest + 256 * low + 65536 * high);
    LittleEndianOf4(lowest, low, high, highest);
  }

  // ---------------------------------------------------------------------
  // Helpers on short byte strings

  lemma LittleEndianOf3(b0: Byte, b1: Byte, b2: Byte)
    ensures LittleEndian([b0, b1, b2]) == b0 + 256 * b1 + 65536 * b2
  {
    assert [b0, b1, b2][1..] == [b1, b2];
    assert [b1, b2][1..] == [b2];
    assert [b2][1..] == [];
    assert LittleEndian([b2]) == b2;
    assert LittleEndian([b1, b2]) == b1 + 256 * b2;
  }

  lemma LittleEndianOf4(b0: Byte, b1: Byte, b2: Byte, b3: Byte)
    ensures LittleEndian([b0, b1, b2, b3]) == b0 + 256 * b1 + 65536 * b2 + 16777216 * b3
  {
    assert [b0, b1, b2, b3][1..] == [b1, b2, b3];
    LittleEndianOf3(b1, b2, b3);
  }

  /** An int that narrows the little-endian value of four bytes gives those
      bytes back through its bit pattern. */
  lemma FourBytesRoundTrip(b0: Byte, b1: Byte, b2: Byte, b3: Byte, r: Int32)
    requires r == Wrap(LittleEndian([b0, b1, b2, b3]))
    ensures ToBytes(Unsigned(r), 4) == [b0, b1, b2, b3]
  {
    var x := LittleEndian([b0, b1, b2, b3]);
    LittleEndianOf4(b0, b1, b2, b3);
    UnsignedWrap(x);
    assert Unsigned(r) == x;
    ToBytesLittleEndian([b0, b1, b2, b3]);
  }
}
