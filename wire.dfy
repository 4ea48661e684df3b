/**
 * The two-byte wire format shared by the controller and the robot: the
 * controller writes `int(v).to_bytes(2, 'little')`, the robot reads it back
 * with `ustruct.unpack("<h", data)`.
 */
module Wire {

  import opened Wrappers
  import opened Numeric

  newtype Byte = b: int | 0 <= b < 256

  /** The characteristics the robot reads: accelerometer y, accelerometer x, button. */
  datatype Channel = Speed | Steering | Horn

  predicate IsInt16(v: int)
  {
    -32768 <= v < 32768
  }

  /** The unsigned value of a little-endian byte pair. */
  function Unsigned(b: seq<Byte>): (u: int)
    requires |b| == 2
    ensures 0 <= u < 65536
  {
    b[0] as int + 256 * b[1] as int
  }

  /** The signed 16-bit number whose two's-complement pattern is `u`. */
  function Signed16(u: int): (v: int)
    requires 0 <= u < 65536
    ensures IsInt16(v) && (v - u) % 65536 == 0
  {
    if u < 32768 then u else u - 65536
  }

  /** The int16 value any integer wraps to when only its low 16 bits are kept. */
  function Wrap16(v: int): (w: int)
    ensures IsInt16(w) && (w - v) % 65536 == 0
  {
    Signed16(v % 65536)
  }

  /**
   * `v.to_bytes(2, 'little')`, assuming a firmware that keeps the low two
   * bytes of the two's-complement value, low byte first, for any integer.
   */
  function ToBytes2(v: int): (b: seq<Byte>)
    ensures |b| == 2
    ensures Unsigned(b) == v % 65536
  {
    var lo := v % 256;
    var hi := (v / 256) % 256;
    assert v % 65536 == lo + 256 * hi by { SplitLowBytes(v); }
    [lo as Byte, hi as Byte]
  }

  lemma SplitLowBytes(v: int)
    ensures v % 65536 == v % 256 + 256 * ((v / 256) % 256)
  {
    var q := v / 256;
    assert v == 256 * q + v % 256;
    assert q == 256 * (q / 256) + q % 256;
    assert v == 65536 * (q / 256) + (v % 256 + 256 * (q % 256));
  }

  /** The controller's `_encode_data`: `int()` first, then two little-endian bytes. */
  function EncodeData(x: real): (b: seq<Byte>)
    ensures |b| == 2
    ensures (Unsigned(b) - Trunc(x)) % 65536 == 0
  {
    ToBytes2(Trunc(x))
  }

  /**
   * The robot's `_decode_data`: `None` for an absent payload, `None` in place
   * of the error `unpack` raises for a payload that is not two bytes long, and
   * otherwise the signed little-endian 16-bit value.
   */
  function Decode(data: Option<seq<Byte>>): (r: Option<int>)
    ensures r.Some? <==> data.Some? && |data.value| == 2
    ensures r.Some? ==> IsInt16(r.value) && (r.value - Unsigned(data.value)) % 65536 == 0
  {
    match data
    case None => None
    case Some(b) => if |b| != 2 then None else Some(Signed16(Unsigned(b)))
  }

  /** Two int16 values with the same low 16 bits are the same value. */
  lemma Int16Unique(a: int, b: int)
    requires IsInt16(a) && IsInt16(b) && (a - b) % 65536 == 0
    ensures a == b
  {
  }

  /** For a non-negative value below 65536 the two bytes are `v mod 256` and `v div 256`. */
  lemma EncodeUnsigned(v: int)
    requires 0 <= v < 65536
    ensures EncodeData(v as real) == [(v % 256) as Byte, (v / 256) as Byte]
  {
    TruncOfInt(v);
  }

  /** Encoding truncates first, so a float and its integer part encode alike. */
  lemma EncodeTruncates(x: real)
    ensures EncodeData(x) == EncodeData(Trunc(x) as real)
  {
    TruncOfInt(Trunc(x));
  }

  /** The decoded value of a byte pair, written out by the sign of the high byte. */
  lemma DecodePair(b0: Byte, b1: Byte)
    ensures Decode(Some([b0, b1])) ==
            Some(if b1 < 128 then b0 as int + 256 * b1 as int else b0 as int + 256 * b1 as int - 65536)
  {
  }

  /** What the robot reads back from anything the controller wrote: its integer part, wrapped to int16. */
  lemma {:induction false} DecodeEncode(x: real)
    ensures Decode(Some(EncodeData(x))) == Some(Wrap16(Trunc(x)))
  {
    var b := EncodeData(x);
    var v := Decode(Some(b)).value;
    Int16Unique(v, Wrap16(Trunc(x)));
  }

  /** The round trip the link relies on: a value in int16 range arrives unchanged. */
  lemma {:induction false} RoundTrip(v: int)
    requires IsInt16(v)
    ensures Decode(Some(EncodeData(v as real))) == Some(v)
  {
    TruncOfInt(v);
    DecodeEncode(v as real);
    Int16Unique(Wrap16(v), v);
  }

  /** The other direction: re-encoding what was decoded reproduces the two bytes. */
  lemma {:induction false} EncodeDecode(b: seq<Byte>)
    requires |b| == 2
    ensures Decode(Some(b)).Some? && EncodeData(Decode(Some(b)).value as real) == b
  {
    var v := Decode(Some(b)).value;
    TruncOfInt(v);
    var e := EncodeData(v as real);
    assert Unsigned(e) == Unsigned(b);
    assert e[0] == b[0] && e[1] == b[1];
  }
}
