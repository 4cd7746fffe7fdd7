/**
 * The utility layer shared by the adapter and the window: the standard
 * Modbus function codes, the connection modes, the value formatter used to
 * display register cells (EUtils::formatValue) and the error text table
 * (EUtils::libmodbus_strerror).
 */
module EUtils {
  import Text

  // ---------------------------------------------------------------------------
  // Function codes of the Modbus Application Protocol Specification V1.1b3
  // (sections 6.1 to 6.6, 6.11, 6.12 and 6.13)

  const ReadCoils: int := 0x01
  const ReadDiscreteInputs: int := 0x02
  const ReadHoldingRegisters: int := 0x03
  const ReadInputRegisters: int := 0x04
  const WriteSingleCoil: int := 0x05
  const WriteSingleRegister: int := 0x06
  const WriteMultipleCoils: int := 0x0F
  const WriteMultipleRegisters: int := 0x10
  const ReportServerId: int := 0x11

  predicate IsReadFunction(fc: int)
  {
    ReadCoils <= fc <= ReadInputRegisters
  }

  predicate IsWriteCoilsFunction(fc: int)
  {
    fc == WriteSingleCoil || fc == WriteMultipleCoils
  }

  predicate IsWriteRegistersFunction(fc: int)
  {
    fc == WriteSingleRegister || fc == WriteMultipleRegisters
  }

  predicate IsWriteFunction(fc: int)
  {
    IsWriteCoilsFunction(fc) || IsWriteRegistersFunction(fc)
  }

  /** The eight function codes a transaction can carry out. */
  predicate IsSupportedFunction(fc: int)
  {
    IsReadFunction(fc) || IsWriteFunction(fc)
  }

  /** The transport the adapter is connected over. */
  datatype Mode = None | RTU | TCP

  // ---------------------------------------------------------------------------
  // QString::arg on integers, as Qt 5 prints them

  const Pow63: int := 0x8000_0000_0000_0000

  /**
   * QString::arg(qlonglong a, width, base, fill): decimal numbers carry a
   * '-', but in any other base a negative number is printed as the unsigned
   * 64-bit number with the same bits (2^64 + a). The field is padded on the
   * left up to `width`; the program pads only with '0', and only in bases 2
   * and 16.
   */
  function ArgLongLong(a: int, width: nat, base: nat, fill: char): (r: string)
    requires 2 <= base <= 16 && -Pow63 <= a < Pow63
    requires base == 10 ==> width == 0
    requires fill == '0' || width == 0
    ensures base == 10 ==> r == Text.Decimal(a)
    ensures base != 10 && a >= 0 ==> Text.ParseNat(r, base) == Text.Some(a)
    ensures base != 10 && a < 0 ==> Text.ParseNat(r, base) == Text.Some(Text.Pow64 + a)
  {
    if base == 10 then Text.Decimal(a)
    else
      var n := Unsigned64(a);
      Text.PadDigitsValue(n, base, width);
      assert width == 0 ==> Text.PadLeft(Text.Digits(n, base), width, fill) == Text.Digits(n, base);
      Text.PadLeft(Text.Digits(n, base), width, fill)
  }

  /** The unsigned 64-bit number with the same bits as the signed `a`. */
  function Unsigned64(a: int): (n: nat)
    requires -Pow63 <= a < Pow63
    ensures n < Text.Pow64 && (a >= 0 ==> n == a) && (a < 0 ==> n == Text.Pow64 + a)
  {
    if a < 0 then Text.Pow64 + a else a
  }

  /** QString::arg(qulonglong a, width, base, fill). */
  function ArgULongLong(a: nat, width: nat, base: nat, fill: char): (r: string)
    requires 2 <= base <= 16
    requires fill == '0' || width == 0
    ensures Text.ParseNat(r, base) == Text.Some(a)
    ensures |r| >= width
  {
    Text.PadDigitsValue(a, base, width);
    assert width == 0 ==> Text.PadLeft(Text.Digits(a, base), width, fill) == Text.Digits(a, base);
    Text.PadLeft(Text.Digits(a, base), width, fill)
  }

  /** The C++ conversion `(signed short)value`: the low 16 bits read as two's complement. */
  function ToShort(v: int): (s: int)
    ensures -0x8000 <= s < 0x8000
    ensures (s - v) % 0x1_0000 == 0
  {
    var low := v % 0x1_0000;
    if low >= 0x8000 then low - 0x1_0000 else low
  }

  /** A value that fits in a short is its own short. */
  lemma ShortOfShort(v: int)
    requires -0x8000 <= v < 0x8000
    ensures ToShort(v) == v
  {
    if v < 0 {
      assert v % 0x1_0000 == v + 0x1_0000;
    }
  }

  /** The C++ conversion `(unsigned short)value`: the low 16 bits. */
  function ToUShort(v: int): (u: nat)
    ensures u < 0x1_0000
    ensures (u - v) % 0x1_0000 == 0
  {
    v % 0x1_0000
  }

  // ---------------------------------------------------------------------------
  // EUtils::formatValue

  /**
   * The text of a register cell: `frmt` 2 is binary, 10 decimal, 16 hex and
   * anything else plain decimal. `is16Bit` selects zero-padded 16-bit fields
   * for binary and hex, `isSigned` the two's-complement reading of the low
   * 16 bits. The result is upper-cased.
   */
  function FormatValue(value: Text.Int32, frmt: int, is16Bit: bool, isSigned: bool): (r: string)
    ensures Text.IsUpper(r)
  {
    var converted :=
      match frmt
      case 2 =>
        if is16Bit then
          if isSigned then ArgLongLong(ToShort(value), 16, 2, '0')
          else ArgULongLong(ToUShort(value), 16, 2, '0')
        else ArgLongLong(value, 0, 2, ' ')
      case 10 =>
        if isSigned then ArgLongLong(ToShort(value), 0, 10, ' ')
        else ArgULongLong(ToUShort(value), 0, 10, ' ')
      case 16 =>
        if is16Bit then ArgLongLong(value, 4, 16, '0')
        else ArgLongLong(value, 0, 16, ' ')
      case _ => ArgLongLong(value, 0, 10, ' ');
    Text.ToUpper(converted)
  }

  /** 16-bit hex of a register value: exactly four digits that parse back to it. */
  lemma Hex16RoundTrip(v: Text.Int32, isSigned: bool)
    requires 0 <= v <= 0xFFFF
    ensures var r := FormatValue(v, 16, true, isSigned);
      |r| == 4 && Text.ParseNat(r, 16) == Text.Some(v)
  {
    Text.PowerFacts();
    Text.DigitsLength(v, 16, 4);
    var s := ArgLongLong(v, 4, 16, '0');
    Text.UpperParse(s, 16);
  }

  /** Hex without 16-bit padding: the minimal hex digits of a non-negative value, no leading zero. */
  lemma HexMinimal(v: Text.Int32, isSigned: bool)
    requires v >= 0
    ensures var r := FormatValue(v, 16, false, isSigned);
      Text.ParseNat(r, 16) == Text.Some(v) && |r| >= 1 && (r[0] != '0' || v == 0)
  {
    var s := ArgLongLong(v, 0, 16, ' ');
    assert s == Text.Digits(v, 16);
    assert FormatValue(v, 16, false, isSigned) == Text.ToUpper(s);
    Text.UpperParse(s, 16);
    Text.UpperDigit(s[0]);
  }

  /** Binary with 16-bit padding, unsigned: the 16 binary digits of the low 16 bits. */
  lemma Bin16Unsigned(v: Text.Int32)
    ensures var r := FormatValue(v, 2, true, false);
      |r| == 16 && Text.ParseNat(r, 2) == Text.Some(v % 0x1_0000)
  {
    var u := ToUShort(v);
    Text.PowerFacts();
    Text.DigitsLength(u, 2, 16);
    var s := ArgULongLong(u, 16, 2, '0');
    Text.UpperParse(s, 2);
  }

  /** Binary without 16-bit padding: the minimal binary digits of a non-negative value. */
  lemma BinMinimal(v: Text.Int32, isSigned: bool)
    requires v >= 0
    ensures var r := FormatValue(v, 2, false, isSigned);
      Text.ParseNat(r, 2) == Text.Some(v) && |r| >= 1 && (r[0] != '0' || v == 0)
  {
    var s := ArgLongLong(v, 0, 2, ' ');
    assert s == Text.Digits(v, 2);
    assert FormatValue(v, 2, false, isSigned) == Text.ToUpper(s);
    Text.UpperParse(s, 2);
    Text.UpperDigit(s[0]);
  }

  /** Unsigned decimal is the decimal of the low 16 bits, whatever `is16Bit` says. */
  lemma DecimalUnsigned(v: Text.Int32, is16Bit: bool)
    ensures var r := FormatValue(v, 10, is16Bit, false);
      r == Text.Decimal(v % 0x1_0000) && Text.ParseInt(r) == Text.Some(v % 0x1_0000)
    ensures 0 <= v <= 0xFFFF ==> Text.ToInt(FormatValue(v, 10, is16Bit, false)) == v
  {
    var u := ToUShort(v);
    var d := Text.Decimal(u);
    assert ArgULongLong(u, 0, 10, ' ') == d;
    Text.DecimalIsUpper(u);
    Text.UpperIdentity(d);
    assert FormatValue(v, 10, is16Bit, false) == d;
    Text.DecimalRoundTrip(u);
    Text.ToIntDecimal(u);
    assert 0 <= v <= 0xFFFF ==> u == v;
  }

  /**
   * Signed decimal reads the low 16 bits as two's complement: the low 16
   * bits themselves when below 0x8000, and 65536 less than them otherwise.
   */
  lemma DecimalSigned(v: Text.Int32, is16Bit: bool)
    ensures var low := v % 0x1_0000;
      Text.ParseInt(FormatValue(v, 10, is16Bit, true)) ==
        Text.Some(if low >= 0x8000 then low - 0x1_0000 else low)
    ensures -0x8000 <= v < 0x8000 ==> Text.ToInt(FormatValue(v, 10, is16Bit, true)) == v
  {
    var s := ToShort(v);
    Text.DecimalIsUpper(s);
    Text.UpperIdentity(Text.Decimal(s));
    Text.DecimalRoundTrip(s);
    Text.ToIntDecimal(s);
    if -0x8000 <= v < 0x8000 {
      ShortOfShort(v);
    }
  }

  /** A format code other than 2, 10 and 16 gives the plain decimal of the value. */
  lemma DefaultDecimal(v: Text.Int32, frmt: int, is16Bit: bool, isSigned: bool)
    requires frmt != 2 && frmt != 10 && frmt != 16
    ensures FormatValue(v, frmt, is16Bit, isSigned) == Text.Decimal(v)
    ensures Text.ToInt(FormatValue(v, frmt, is16Bit, isSigned)) == v
  {
    Text.DecimalIsUpper(v);
    Text.UpperIdentity(Text.Decimal(v));
    Text.ToIntDecimal(v);
  }

  /**
   * In hex a negative value is printed as the 16 hex digits of the unsigned
   * 64-bit number with the same bits, with or without the 16-bit flag.
   */
  lemma HexNegative(v: Text.Int32, is16Bit: bool, isSigned: bool)
    requires v < 0
    ensures var r := FormatValue(v, 16, is16Bit, isSigned);
      |r| == 16 && Text.ParseNat(r, 16) == Text.Some(Text.Pow64 + v)
  {
    var n: nat := Text.Pow64 + v;
    Text.PowerFacts();
    Text.DigitsLength(n, 16, 16);
    Text.DigitsLengthAtLeast(n, 16, 16);
    var s := ArgLongLong(v, if is16Bit then 4 else 0, 16, if is16Bit then '0' else ' ');
    assert s == Text.Digits(n, 16);
    Text.UpperParse(s, 16);
  }

  /**
   * Signed 16-bit binary of a value whose low 16 bits are 0x8000 or more is
   * 64 binary digits, not 16: the short is negative and Qt 5 prints it as a
   * 64-bit unsigned number. The window only offers the signed reading with
   * the decimal format, so this case is not reached from the user interface.
   */
  lemma Bin16SignedNegative(v: Text.Int32)
    requires v % 0x1_0000 >= 0x8000
    ensures var r := FormatValue(v, 2, true, true);
      |r| == 64 && Text.ParseNat(r, 2) == Text.Some(Text.Pow64 + ToShort(v))
  {
    var n: nat := Text.Pow64 + ToShort(v);
    Text.PowerFacts();
    Text.DigitsLength(n, 2, 64);
    Text.DigitsLengthAtLeast(n, 2, 64);
    var s := ArgLongLong(ToShort(v), 16, 2, '0');
    assert s == Text.Digits(n, 2);
    Text.UpperParse(s, 2);
  }

  /** Binary without 16-bit padding of a negative value: the 64 binary digits of its unsigned 64-bit image. */
  lemma BinNegative(v: Text.Int32, isSigned: bool)
    requires v < 0
    ensures var r := FormatValue(v, 2, false, isSigned);
      |r| == 64 && Text.ParseNat(r, 2) == Text.Some(Text.Pow64 + v)
  {
    var n: nat := Text.Pow64 + v;
    Text.PowerFacts();
    Text.DigitsLength(n, 2, 64);
    Text.DigitsLengthAtLeast(n, 2, 64);
    var s := ArgLongLong(v, 0, 2, ' ');
    assert s == Text.Digits(n, 2);
    Text.UpperParse(s, 2);
  }

  /** Signed 16-bit binary of a value whose low 16 bits are below 0x8000: exactly those 16 bits. */
  lemma Bin16SignedNonNegative(v: Text.Int32)
    requires v % 0x1_0000 < 0x8000
    ensures var r := FormatValue(v, 2, true, true);
      |r| == 16 && Text.ParseNat(r, 2) == Text.Some(v % 0x1_0000)
  {
    var n: nat := ToShort(v);
    Text.PowerFacts();
    Text.DigitsLength(n, 2, 16);
    var s := ArgLongLong(n, 16, 2, '0');
    Text.UpperParse(s, 2);
  }

  // ---------------------------------------------------------------------------
  // EUtils::libmodbus_strerror

  // errno values of Linux, the platform the error texts were written for
  const EPIPE: int := 32
  const EINVAL: int := 22
  const ECONNRESET: int := 104
  const ETIMEDOUT: int := 110
  const ECONNREFUSED: int := 111

  predicate HasOwnMessage(errnum: int)
  {
    errnum == EINVAL || errnum == ETIMEDOUT || errnum == ECONNRESET
    || errnum == ECONNREFUSED || errnum == EPIPE
  }

  /**
   * The error text for `errnum`. Five codes have fixed messages; any other
   * code falls back to libmodbus' modbus_strerror, which is applied to the
   * global `errno` rather than to `errnum`.
   */
  function LibmodbusStrerror(errnum: int, errno: int, modbusStrerror: int -> string): (m: string)
    ensures errnum == EINVAL ==> m == "Protocol context is NULL"
    ensures errnum == ETIMEDOUT ==> m == "Timeout"
    ensures errnum == ECONNRESET ==> m == "Connection reset"
    ensures errnum == ECONNREFUSED ==> m == "Connection refused"
    ensures errnum == EPIPE ==> m == "Socket error"
    ensures !HasOwnMessage(errnum) ==> m == modbusStrerror(errno)
  {
    if errnum == EINVAL then "Protocol context is NULL"
    else if errnum == ETIMEDOUT then "Timeout"
    else if errnum == ECONNRESET then "Connection reset"
    else if errnum == ECONNREFUSED then "Connection refused"
    else if errnum == EPIPE then "Socket error"
    else modbusStrerror(errno)
  }

  /** The five fixed messages are distinct, so the message identifies the code. */
  lemma StrerrorFixedInjective(a: int, b: int, errno: int, f: int -> string)
    requires HasOwnMessage(a) && HasOwnMessage(b)
    requires LibmodbusStrerror(a, errno, f) == LibmodbusStrerror(b, errno, f)
    ensures a == b
  {
    var m := LibmodbusStrerror(a, errno, f);
    assert m[0] == LibmodbusStrerror(b, errno, f)[0];
    assert |m| == |LibmodbusStrerror(b, errno, f)|;
  }

  /** Outside the table the code passed in makes no difference: only `errno` does. */
  lemma StrerrorFallbackIgnoresCode(a: int, b: int, errno: int, f: int -> string)
    requires !HasOwnMessage(a) && !HasOwnMessage(b)
    ensures LibmodbusStrerror(a, errno, f) == LibmodbusStrerror(b, errno, f)
  {
  }
}
