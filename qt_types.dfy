/**
 * Value types shared by the settings model: the fixed-width integers of the
 * C++ source and a model of the QVariant values that QSettings and the
 * options map store.
 */
module QtTypes {

  datatype Option<T> = None | Some(value: T)

  type Byte = x: int | 0 <= x < 0x100
  type Int8 = x: int | -0x80 <= x < 0x80
  type UInt8 = Byte
  type UInt16 = x: int | 0 <= x < 0x1_0000
  type Int32 = x: int | -0x8000_0000 <= x < 0x8000_0000
  type UInt32 = x: int | 0 <= x < 0x1_0000_0000

  /** Two's-complement reinterpretation of a 32-bit pattern as signed (uint -> int). */
  function SignedOf32(u: UInt32): (r: Int32)
    ensures r % 0x1_0000_0000 == u % 0x1_0000_0000
  {
    if u < 0x8000_0000 then u else u - 0x1_0000_0000
  }

  /** Two's-complement reinterpretation of a signed 32-bit value as unsigned (int -> uint). */
  function UnsignedOf32(i: Int32): (r: UInt32)
    ensures r % 0x1_0000_0000 == i % 0x1_0000_0000
  {
    if i >= 0 then i else i + 0x1_0000_0000
  }

  /** The truncating conversion of an int to qint8 (keeps the low 8 bits, signed). */
  function Truncate8(i: Int32): (r: Int8)
    ensures r % 0x100 == i % 0x100
  {
    var low := i % 0x100;
    if low < 0x80 then low else low - 0x100
  }

  /** A rectangle as QRect stores it: left, top, width, height. */
  datatype Rect = Rect(left: Int32, top: Int32, width: Int32, height: Int32)

  /** The null QRect (QRect() has zero width and height at the origin). */
  const NullRect := Rect(0, 0, 0, 0)

  /**
   * A QVariant restricted to the kinds of value the settings store holds.
   * Invalid is the default-constructed QVariant().
   */
  datatype Variant =
    | Invalid
    | Bool(b: bool)
    | Int(i: Int32)
    | UInt(u: UInt32)
    | Text(s: string)
    | Bytes(data: seq<Byte>)
    | RectValue(rect: Rect)

  function LowerAscii(c: char): char
  {
    if 'A' <= c <= 'Z' then (c as int - 'A' as int + 'a' as int) as char else c
  }

  function LowerText(s: string): (r: string)
    ensures |r| == |s|
    ensures forall i :: 0 <= i < |s| ==> r[i] == LowerAscii(s[i])
  {
    if s == [] then [] else [LowerAscii(s[0])] + LowerText(s[1..])
  }

  /** QString to bool as QVariant converts it: false for "", "0" and "false" in any case. */
  predicate TextToBool(s: string)
  {
    !(s == "" || s == "0" || LowerText(s) == "false")
  }

  /** QVariant::toBool for the modelled kinds. */
  predicate ToBool(v: Variant)
  {
    match v
    case Bool(b) => b
    case Int(i) => i != 0
    case UInt(u) => u != 0
    case Text(s) => TextToBool(s)
    case _ => false
  }

  /** QVariant::toInt for the modelled kinds (text parsing is not modelled). */
  function ToInt(v: Variant): Int32
  {
    match v
    case Int(i) => i
    case UInt(u) => SignedOf32(u)
    case Bool(b) => if b then 1 else 0
    case _ => 0
  }

  /** QVariant::toUInt for the modelled kinds (text parsing is not modelled). */
  function ToUInt(v: Variant): UInt32
  {
    match v
    case UInt(u) => u
    case Int(i) => UnsignedOf32(i)
    case Bool(b) => if b then 1 else 0
    case _ => 0
  }

  /** QVariant::toString for the modelled kinds (number formatting is not modelled). */
  function ToText(v: Variant): string
  {
    match v
    case Text(s) => s
    case Bool(b) => if b then "true" else "false"
    case _ => ""
  }

  /** QVariant::toByteArray for the modelled kinds (text encoding is not modelled). */
  function ToBytes(v: Variant): seq<Byte>
  {
    match v
    case Bytes(d) => d
    case _ => []
  }

  /** QVariant::toRect: a stored rectangle, otherwise the null rectangle. */
  function ToRect(v: Variant): Rect
  {
    match v
    case RectValue(r) => r
    case _ => NullRect
  }

  /** Reading back a value of the kind that was stored yields exactly what was stored. */
  lemma ConversionsRoundTrip(b: bool, i: Int32, u: UInt32, s: string, d: seq<Byte>, r: Rect)
    ensures ToBool(Bool(b)) == b
    ensures ToInt(Int(i)) == i
    ensures ToUInt(UInt(u)) == u
    ensures ToText(Text(s)) == s
    ensures ToBytes(Bytes(d)) == d
    ensures ToRect(RectValue(r)) == r
  {
  }
}
