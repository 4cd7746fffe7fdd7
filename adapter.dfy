/**
 * The Modbus master adapter (ModbusAdapter): it owns the libmodbus context,
 * connects over a serial line (RTU) or TCP, carries out one request at a
 * time on the stored slave / function code / start address / count, copies
 * read results into the register table, counts packets and errors, logs to
 * the raw bus log and reports failures on the information bar.
 *
 * The context pointer has three states: null, a live context, and a context
 * that has been freed but whose pointer was not reset (after a refused slave
 * id or a refused connection). `Valid` ties the connected flag to the live
 * state, so a disconnect frees exactly the contexts that are still live.
 */
module Adapter {
  import Text
  import EUtils
  import Libmodbus
  import Models

  datatype Handle = Null | Live(ctx: nat) | Dangling(ctx: nat)

  /** How a connect attempt ended. */
  datatype ConnectOutcome = NoContext | BlankAddress | BadSlave | Refused | Connected

  const MismatchText: string := "Number of registers returned does not match number of registers requested!. Error : "
  const NoContextText: string := "Unable to create the libmodbus context."
  const BadSlaveText: string := "Invalid slave ID."
  const SerialRefusedText: string := "Connection failed\nCould not connect to serial port."
  const TcpRefusedText: string := "Connection failed\nCould not connect to TCP port."
  const BlankAddressText: string := "Connection failed\nBlank IP Address."
  const WrittenText: string := "values written correctly."

  /** The log text of a failed read or write, from the result and the error text. */
  function FailureLogText(ret: int, reason: string): string
  {
    if ret < 0 then "Error : " + reason else MismatchText + reason
  }

  /** The information-bar text of a failed read ("Read") or write ("Write"). */
  function FailureBannerText(operation: string, ret: int, reason: string): string
  {
    operation + " data failed.\n" + FailureLogText(ret, reason)
  }

  /** The library calls a disconnect makes: close and free a live context, nothing otherwise. */
  function DisconnectCalls(h: Handle): seq<Libmodbus.Call>
  {
    if h.Live? then [Libmodbus.Call.Close(h.ctx), Libmodbus.Call.Free(h.ctx)] else []
  }

  /** The read primitive a read function code selects. */
  function ReadCalls(c: nat, fc: int, start: int, n: int): seq<Libmodbus.Call>
  {
    if fc == EUtils.ReadCoils then [Libmodbus.Call.ReadBits(c, start, n)]
    else if fc == EUtils.ReadDiscreteInputs then [Libmodbus.Call.ReadInputBits(c, start, n)]
    else if fc == EUtils.ReadHoldingRegisters then [Libmodbus.Call.ReadRegisters(c, start, n)]
    else if fc == EUtils.ReadInputRegisters then [Libmodbus.Call.ReadInputRegisters(c, start, n)]
    else []
  }

  /** A table value as the uint8_t the coil buffer holds. */
  function AsByte(v: int): Libmodbus.Byte
  {
    (v % 0x100) as Libmodbus.Byte
  }

  /** A table value as the uint16_t the register buffer and modbus_write_register take. */
  function AsWord(v: int): Libmodbus.Word
  {
    (v % 0x1_0000) as Libmodbus.Word
  }

  /** The first n table values as the bytes of a coil write (0 past the end of the table). */
  function CoilValues(cells: seq<Models.Cell>, n: nat): (r: seq<Libmodbus.Byte>)
    ensures |r| == n && forall i :: 0 <= i < n ==> r[i] == AsByte(Models.ValueAt(cells, i))
  {
    seq(n, i => AsByte(Models.ValueAt(cells, i)))
  }

  /** The first n table values as the words of a register write. */
  function RegisterValues(cells: seq<Models.Cell>, n: nat): (r: seq<Libmodbus.Word>)
    ensures |r| == n && forall i :: 0 <= i < n ==> r[i] == AsWord(Models.ValueAt(cells, i))
  {
    seq(n, i => AsWord(Models.ValueAt(cells, i)))
  }

  /**
   * The write primitive a write function code selects, with the values it
   * sends: row 0 for the single writes, rows 0 to n-1 in order for the
   * multiple writes.
   */
  function WriteCalls(c: nat, fc: int, start: int, n: int, cells: seq<Models.Cell>): seq<Libmodbus.Call>
    requires fc == EUtils.WriteMultipleCoils || fc == EUtils.WriteMultipleRegisters ==> n >= 0
  {
    if fc == EUtils.WriteSingleCoil then
      [Libmodbus.Call.WriteBit(c, start, Models.ValueAt(cells, 0))]
    else if fc == EUtils.WriteSingleRegister then
      [Libmodbus.Call.WriteRegister(c, start, AsWord(Models.ValueAt(cells, 0)))]
    else if fc == EUtils.WriteMultipleCoils then
      [Libmodbus.Call.WriteBits(c, start, n, CoilValues(cells, n))]
    else if fc == EUtils.WriteMultipleRegisters then
      [Libmodbus.Call.WriteRegisters(c, start, n, RegisterValues(cells, n))]
    else []
  }

  /** The count a write is checked against: 1 for the single writes, the requested count otherwise. */
  function WriteCount(fc: int, n: int): int
  {
    if fc == EUtils.WriteSingleCoil || fc == EUtils.WriteSingleRegister then 1 else n
  }

  /** The parts of a dotted address, each replaced by the decimal form of its integer value. */
  function NormalisedParts(parts: seq<string>): (r: seq<string>)
    ensures |r| == |parts|
    ensures forall i :: 0 <= i < |r| ==> r[i] == Text.Decimal(Text.ToInt(parts[i]))
  {
    seq(|parts|, i requires 0 <= i < |parts| => Text.Decimal(Text.ToInt(parts[i])))
  }

  lemma NormalisedSnoc(parts: seq<string>, p: string)
    ensures NormalisedParts(parts + [p]) == NormalisedParts(parts) + [Text.Decimal(Text.ToInt(p))]
  {
    var l, r := NormalisedParts(parts + [p]), NormalisedParts(parts) + [Text.Decimal(Text.ToInt(p))];
    forall i | 0 <= i < |l| ensures l[i] == r[i] {
      if i < |parts| {
        assert (parts + [p])[i] == parts[i];
      }
    }
  }

  /** One more normalised part joins on after a dot. */
  lemma StripStep(parts: seq<string>, i: nat)
    requires 1 <= i < |parts|
    ensures Text.Join(NormalisedParts(parts[..i + 1]), '.')
         == Text.Join(NormalisedParts(parts[..i]), '.') + "." + Text.Decimal(Text.ToInt(parts[i]))
  {
    assert parts[..i + 1] == parts[..i] + [parts[i]];
    NormalisedSnoc(parts[..i], parts[i]);
    Text.JoinSnoc(NormalisedParts(parts[..i]), Text.Decimal(Text.ToInt(parts[i])), '.');
  }

  /**
   * What stripIP returns: "" unless the address has exactly four
   * dot-separated parts, and otherwise the parts' integer values in decimal,
   * joined by dots.
   */
  function StrippedIP(ip: string): string
  {
    var parts := Text.Split(ip, '.');
    if |parts| == 4 then Text.Join(NormalisedParts(parts), '.') else ""
  }

  /** The first part of the log line of an RTU connect. */
  function RtuLine(port: string): string
  {
    "Connecting to Serial Port [" + port + "]..."
  }

  /** The first part of the log line of a TCP connect: the address as given and the port in decimal. */
  function TcpLine(ip: string, port: int): string
  {
    "Connecting to IP : " + ip + ":" + Text.Decimal(port)
  }

  /** The context pointer a connect attempt leaves: none, a live context, or a freed one still held. */
  function OutcomeHandle(outcome: ConnectOutcome, c: nat): Handle
  {
    match outcome
    case NoContext => Null
    case BlankAddress => Null
    case Connected => Live(c)
    case _ => Dangling(c)
  }

  /** The log lines an RTU connect adds: one only when a connection was attempted. */
  function RtuLog(port: string, outcome: ConnectOutcome): seq<Models.LogLine>
  {
    match outcome
    case Refused => [Models.LogLine(Models.SysStamp, RtuLine(port) + "Failed")]
    case Connected => [Models.LogLine(Models.SysStamp, RtuLine(port) + "OK")]
    case _ => []
  }

  /** The information bar after an RTU connect. */
  function RtuBanner(outcome: ConnectOutcome): Models.Banner
  {
    match outcome
    case NoContext => Models.Error(NoContextText)
    case BadSlave => Models.Error(BadSlaveText)
    case Refused => Models.Error(SerialRefusedText)
    case _ => Models.Hidden
  }

  /** The log lines a TCP connect adds: one only when a connection was attempted. */
  function TcpLog(ip: string, port: int, outcome: ConnectOutcome): seq<Models.LogLine>
  {
    match outcome
    case Refused => [Models.LogLine(Models.SysStamp, TcpLine(ip, port) + " Failed")]
    case Connected => [Models.LogLine(Models.SysStamp, TcpLine(ip, port) + " OK")]
    case _ => []
  }

  /** The information bar after a TCP connect. */
  function TcpBanner(outcome: ConnectOutcome): Models.Banner
  {
    match outcome
    case BlankAddress => Models.Error(BlankAddressText)
    case NoContext => Models.Error(NoContextText)
    case Refused => Models.Error(TcpRefusedText)
    case _ => Models.Hidden
  }

  /** The bus-monitor text of one byte: two lower-case hex digits (printf "%.2x"). */
  function HexPair(b: Libmodbus.Byte): (s: string)
    ensures |s| == 2
  {
    [Text.DigitChar(b as nat / 16), Text.DigitChar(b as nat % 16)]
  }

  /** The upper-cased pair parses back to the byte, as a base-16 number. */
  lemma HexPairValue(b: Libmodbus.Byte)
    ensures Text.ParseNat(Text.ToUpper(HexPair(b)), 16) == Text.Some(b as nat)
  {
    var p := HexPair(b);
    Text.DigitRoundTrip(b as nat / 16);
    Text.DigitRoundTrip(b as nat % 16);
    assert Text.AllDigits(p, 16);
    var p0 := p[..1];
    assert p0 == [p[0]] && p0[..0] == [];
    assert Text.ValueOf(p0, 16) == Text.DigitValue(p[0]);
    assert Text.ValueOf(p, 16) == Text.ValueOf(p0, 16) * 16 + Text.DigitValue(p[1]);
    Text.UpperParse(p, 16);
  }

  /** The bus-monitor text of a frame: each byte as HexPair followed by two spaces. */
  function HexLine(bytes: seq<Libmodbus.Byte>): (s: string)
    ensures |s| == 4 * |bytes|
  {
    if bytes == [] then "" else HexPair(bytes[0]) + "  " + HexLine(bytes[1..])
  }

  /** Reads a bus-monitor line back into the bytes it shows. */
  function DecodeHexLine(s: string): Text.Option<seq<Libmodbus.Byte>>
    decreases |s|
  {
    if s == [] then Text.Some([])
    else if |s| < 4 || s[2..4] != "  " then Text.None
    else
      var b := Text.ParseNat(s[..2], 16);
      var rest := DecodeHexLine(s[4..]);
      if b.Some? && b.value < 0x100 && rest.Some? then Text.Some([b.value as Libmodbus.Byte] + rest.value)
      else Text.None
  }

  lemma {:induction false} HexLineSnoc(bytes: seq<Libmodbus.Byte>, b: Libmodbus.Byte)
    ensures HexLine(bytes + [b]) == HexLine(bytes) + HexPair(b) + "  "
    decreases |bytes|
  {
    if bytes == [] {
      assert bytes + [b] == [b];
    } else {
      var p, q := HexPair(bytes[0]), HexPair(b);
      var a, x := p + "  ", HexLine(bytes[1..]);
      assert (bytes + [b])[0] == bytes[0];
      assert (bytes + [b])[1..] == bytes[1..] + [b];
      assert HexLine(bytes + [b]) == a + HexLine(bytes[1..] + [b]);
      HexLineSnoc(bytes[1..], b);
      Text.ConcatAssoc(a, x + q, "  ");
      Text.ConcatAssoc(a, x, q);
    }
  }

  /** The upper-cased bus-monitor line decodes to exactly the bytes of the frame. */
  lemma {:induction false} HexLineRoundTrip(bytes: seq<Libmodbus.Byte>)
    ensures DecodeHexLine(Text.ToUpper(HexLine(bytes))) == Text.Some(bytes)
    decreases |bytes|
  {
    if bytes != [] {
      var p := HexPair(bytes[0]);
      var rest := HexLine(bytes[1..]);
      Text.UpperConcat(p + "  ", rest);
      Text.UpperConcat(p, "  ");
      var s := Text.ToUpper(HexLine(bytes));
      assert s == Text.ToUpper(p) + "  " + Text.ToUpper(rest);
      assert s[..2] == Text.ToUpper(p);
      assert s[2..4] == "  ";
      assert s[4..] == Text.ToUpper(rest);
      HexPairValue(bytes[0]);
      HexLineRoundTrip(bytes[1..]);
      assert [bytes[0]] + bytes[1..] == bytes;
    }
  }

  /** A stripped address is never stripped differently again. */
  lemma StrippedIPIdempotent(ip: string)
    requires StrippedIP(ip) != ""
    ensures StrippedIP(StrippedIP(ip)) == StrippedIP(ip)
  {
    var parts := Text.Split(ip, '.');
    var norm := NormalisedParts(parts);
    forall i | 0 <= i < |norm| ensures '.' !in norm[i] {
      Text.DecimalNoSeparator(Text.ToInt(parts[i]), '.');
    }
    Text.SplitJoin(norm, '.');
    var again := NormalisedParts(norm);
    forall i | 0 <= i < 4 ensures again[i] == norm[i] {
      Text.ToIntDecimal(Text.ToInt(parts[i]));
    }
    assert again == norm;
  }

  /** stripIP gives "" exactly when the address does not have four dot-separated parts. */
  lemma StrippedIPBlank(ip: string)
    ensures StrippedIP(ip) == "" <==> |Text.Split(ip, '.')| != 4
  {
    var parts := Text.Split(ip, '.');
    if |parts| == 4 {
      var norm := NormalisedParts(parts);
      assert Text.Join(norm, '.') == norm[0] + ['.'] + Text.Join(norm[1..], '.');
    }
  }

  /** The read that refreshes a table of writable items: coils for coils, holding registers for registers. */
  function ReadBackFunction(fc: int): (r: int)
    ensures EUtils.IsReadFunction(r)
    ensures EUtils.IsWriteCoilsFunction(fc) ==> r == EUtils.ReadCoils
    ensures !EUtils.IsWriteCoilsFunction(fc) ==> r == EUtils.ReadHoldingRegisters
  {
    if EUtils.IsWriteCoilsFunction(fc) then EUtils.ReadCoils else EUtils.ReadHoldingRegisters
  }

  /**
   * What addItems makes of the state `v`: a fresh table of `n` invalid
   * cells, read back once when connected and `fc` writes.
   */
  function AddItemsOutcome(v: View, connected: bool, h: Handle, mode: EUtils.Mode, slave: int, fc: int, start: int, n: int,
                           traffic: seq<Libmodbus.Frame>, received: seq<int>, ret: int, reason: string): View
  {
    var table := v.(cells := Models.FreshCells(n));
    if connected && EUtils.IsWriteFunction(fc) then
      ReadOutcome(table, h, mode, slave, ReadBackFunction(fc), start, n, traffic, received, ret, reason)
    else table
  }

  /** The entries of a receive buffer as integers, one for one. */
  function Widened<T>(s: seq<T>, asInt: T -> int): (r: seq<int>)
    ensures |r| == |s| && forall i :: 0 <= i < |s| ==> r[i] == asInt(s[i])
  {
    seq(|s|, i requires 0 <= i < |s| => asInt(s[i]))
  }

  /** The part of the program state a transaction changes. */
  datatype View = View(calls: seq<Libmodbus.Call>, cells: seq<Models.Cell>, errors: nat,
                       lines: seq<Models.LogLine>, banner: Models.Banner, pending: bool)

  /**
   * The raw-log line a traffic hook writes for one frame: its bytes in
   * upper-case hex, stamped as sent or received in the current mode.
   */
  function MonitorLine(mode: EUtils.Mode, f: Libmodbus.Frame): Models.LogLine
  {
    match f
    case Request(bytes) => Models.LogLine(Models.TxStamp(mode), Text.ToUpper(HexLine(bytes)))
    case Response(bytes) => Models.LogLine(Models.RxStamp(mode), Text.ToUpper(HexLine(bytes)))
  }

  /** The lines the traffic hooks write for the frames of one call, in order. */
  function MonitorLines(mode: EUtils.Mode, traffic: seq<Libmodbus.Frame>): (r: seq<Models.LogLine>)
    ensures |r| == |traffic|
  {
    if traffic == [] then [] else MonitorLines(mode, traffic[..|traffic| - 1]) + [MonitorLine(mode, traffic[|traffic| - 1])]
  }

  /**
   * The pending flag after the hooks ran for `traffic`: a request sets it
   * and a reply clears it, so the last frame decides; without frames it
   * stays as it was.
   */
  function PendingAfter(pending: bool, traffic: seq<Libmodbus.Frame>): bool
  {
    if traffic == [] then pending else traffic[|traffic| - 1].Request?
  }

  /** The state `v` after the traffic hooks ran for the frames of one call. */
  function Monitored(v: View, mode: EUtils.Mode, traffic: seq<Libmodbus.Frame>): View
  {
    v.(lines := v.lines + MonitorLines(mode, traffic), pending := PendingAfter(v.pending, traffic))
  }

  /**
   * The failure path of a read or write: a flush, every cell invalid, one
   * more error, one log line whose text depends on the sign of the result,
   * and the error on the bar.
   */
  function Failed(v: View, c: nat, operation: string, ret: int, reason: string): View
  {
    v.(calls := v.calls + [Libmodbus.Call.Flush(c)], cells := Models.Invalidated(v.cells), errors := v.errors + 1,
       lines := v.lines + [Models.LogLine(Models.SysStamp, FailureLogText(ret, reason))],
       banner := Models.Error(FailureBannerText(operation, ret, reason)))
  }

  /**
   * What modbusReadData makes of the state `v`. Without a live context
   * nothing happens. Otherwise it sets the slave and calls the read
   * primitive, whose frames `traffic` the hooks log in mode `mode`; a result
   * equal to the requested count stores the received values as valid cells
   * and hides the bar, any other result takes the failure path.
   */
  function ReadOutcome(v: View, h: Handle, mode: EUtils.Mode, slave: int, fc: int, start: int, n: int,
                       traffic: seq<Libmodbus.Frame>, received: seq<int>, ret: int, reason: string): View
  {
    if !h.Live? then v
    else
      var calls := v.calls + [Libmodbus.Call.SetSlave(h.ctx, slave)] + ReadCalls(h.ctx, fc, start, n);
      var m := Monitored(v, mode, traffic).(calls := calls);
      if ret == n then m.(cells := Models.Stored(v.cells, received), banner := Models.Hidden)
      else Failed(m, h.ctx, "Read", ret, reason)
  }

  /**
   * What modbusWriteData makes of the state `v`: the write primitive is
   * called with the table's values, which are never changed, and its frames
   * are logged by the hooks; a result equal to WriteCount logs "values
   * written correctly." and hides the bar, any other result takes the
   * failure path.
   */
  function WriteOutcome(v: View, h: Handle, mode: EUtils.Mode, slave: int, fc: int, start: int, n: int,
                        traffic: seq<Libmodbus.Frame>, ret: int, reason: string): View
    requires fc == EUtils.WriteMultipleCoils || fc == EUtils.WriteMultipleRegisters ==> n >= 0
  {
    if !h.Live? then v
    else
      var calls := v.calls + [Libmodbus.Call.SetSlave(h.ctx, slave)] + WriteCalls(h.ctx, fc, start, n, v.cells);
      var m := Monitored(v, mode, traffic).(calls := calls);
      if ret == WriteCount(fc, n) then
        m.(lines := m.lines + [Models.LogLine(Models.SysStamp, WrittenText)], banner := Models.Hidden)
      else Failed(m, h.ctx, "Write", ret, reason)
  }

  class ModbusAdapter {
    var handle: Handle
    var connected: bool
    var mode: EUtils.Mode
    var timeOut: int
    var transactionIsPending: bool
    var packets: nat
    var errors: nat
    var slave: int
    var functionCode: int
    var startAddr: int
    var numOfRegs: int
    var scanRate: int
    /** The poll timer: whether it runs, and the interval it was started with. */
    var pollRunning: bool
    var pollInterval: int
    /** How many refreshView signals have been emitted. */
    var refreshes: nat

    const regModel: Models.RegistersModel
    const rawModel: Models.RawDataModel
    const infoBar: Models.InfoBar
    const lib: Libmodbus.Library
    const dest: array<Libmodbus.Byte>
    const dest16: array<Libmodbus.Word>

    ghost predicate Valid()
      reads this, lib
    {
      && lib.Valid()
      && dest.Length == Libmodbus.MaxReadBits
      && dest16.Length == Libmodbus.MaxReadRegisters
      && (connected <==> handle.Live?)
      && (handle.Live? ==> handle.ctx in lib.live)
      && (handle.Dangling? ==> handle.ctx !in lib.live)
    }

    /**
     * A fresh adapter: no context, disconnected, no mode, zero timeout and
     * counters, zeroed receive buffers for 2000 bits and 125 registers. The
     * request fields and the scan rate are left undetermined.
     */
    constructor(lib: Libmodbus.Library, infoBar: Models.InfoBar)
      requires lib.Valid()
      ensures Valid()
      ensures handle == Null && !connected && mode == EUtils.None && timeOut == 0
      ensures !transactionIsPending && packets == 0 && errors == 0
      ensures !pollRunning && refreshes == 0
      ensures this.lib == lib && this.infoBar == infoBar
      ensures fresh(regModel) && fresh(rawModel) && regModel.cells == [] && rawModel.lines == []
      ensures fresh(dest) && fresh(dest16)
      ensures forall i :: 0 <= i < dest.Length ==> dest[i] == 0
      ensures forall i :: 0 <= i < dest16.Length ==> dest16[i] == 0
    {
      this.lib := lib;
      this.infoBar := infoBar;
      regModel := new Models.RegistersModel();
      rawModel := new Models.RawDataModel();
      handle := Null;
      connected := false;
      mode := EUtils.None;
      timeOut := 0;
      transactionIsPending := false;
      packets := 0;
      errors := 0;
      slave := *;
      functionCode := *;
      startAddr := *;
      numOfRegs := *;
      scanRate := *;
      pollRunning := false;
      pollInterval := 0;
      refreshes := 0;
      dest := new Libmodbus.Byte[Libmodbus.MaxReadBits](_ => 0);
      dest16 := new Libmodbus.Word[Libmodbus.MaxReadRegisters](_ => 0);
    }

    /** The error text for the errno a failed call left behind. */
    function Reason(err: int): string
    {
      EUtils.LibmodbusStrerror(err, err, lib.strerror)
    }

    /** isConnected: true exactly when a live context is held. */
    function IsConnected(): (r: bool)
      reads this, lib
      ensures Valid() ==> (r <==> handle.Live?)
    {
      connected
    }

    // -------------------------------------------------------------------------
    // Connecting and disconnecting

    /**
     * modbusDisConnect: afterwards there is no context, the adapter is
     * disconnected and has no mode. A live context is closed and freed; a
     * dangling one is only forgotten, so it is never freed twice. A second
     * disconnect calls nothing.
     */
    method DisConnect()
      requires Valid()
      modifies this`handle, this`connected, this`mode, lib`calls, lib`live, lib`errno
      ensures Valid()
      ensures handle == Null && !connected && mode == EUtils.None
      ensures lib.calls == old(lib.calls) + DisconnectCalls(old(handle))
      ensures lib.live == if old(handle).Live? then old(lib.live) - {old(handle).ctx} else old(lib.live)
    {
      if handle != Null {
        if connected {
          lib.Close(handle.ctx);
          lib.Free(handle.ctx);
        }
        handle := Null;
      }
      connected := false;
      mode := EUtils.None;
    }

    /** The library calls of a connect attempt on a created context: connect, then either set up or free it. */
    static function EstablishCalls(c: nat, t: int, ok: bool): seq<Libmodbus.Call>
    {
      [Libmodbus.Call.Connect(c)] +
        if ok then [Libmodbus.Call.SetErrorRecoveryProtocol(c), Libmodbus.Call.SetResponseTimeout(c, t, 0)]
        else [Libmodbus.Call.Free(c)]
    }

    /**
     * The tail both connects share once a context exists: a refused
     * connection frees the context (the pointer is kept, so it dangles) and
     * shows `refusedMessage`; an accepted one sets protocol error recovery and
     * the response timeout, becomes connected and hides the bar. Either way
     * the mode becomes `m` and one line is logged, `okLine` or `failedLine`.
     */
    method Establish(id: nat, t: int, refusedMessage: string, m: EUtils.Mode, okLine: string, failedLine: string)
      returns (ok: bool)
      requires lib.Valid() && id in lib.live
      modifies this`handle, this`connected, this`mode, lib`live, lib`calls, lib`errno, rawModel, infoBar
      ensures lib.Valid()
      ensures connected == ok && mode == m
      ensures handle == if ok then Live(id) else Dangling(id)
      ensures lib.live == if ok then old(lib.live) else old(lib.live) - {id}
      ensures infoBar.banner == if ok then Models.Hidden else Models.Error(refusedMessage)
      ensures rawModel.lines == old(rawModel.lines) + [Models.LogLine(Models.SysStamp, if ok then okLine else failedLine)]
      ensures lib.calls == old(lib.calls) + EstablishCalls(id, t, ok)
    {
      var rc := lib.Connect(id);
      ok := rc != -1;
      var line: string;
      if !ok {
        lib.Free(id);
        handle := Dangling(id);
        infoBar.ShowError(refusedMessage);
        connected := false;
        line := failedLine;
      } else {
        lib.SetErrorRecoveryProtocol(id);
        lib.SetResponseTimeout(id, t, 0);
        handle := Live(id);
        connected := true;
        line := okLine;
        infoBar.Hide();
      }
      mode := m;
      rawModel.AddLine(Models.LogLine(Models.SysStamp, line));
    }

    /** The library calls of an RTU connect after its disconnect, by outcome. */
    static function RtuCalls(port: string, baud: int, parity: char, dataBits: int, stopBits: int, rts: int,
                             slave: int, t: int, outcome: ConnectOutcome, c: nat): seq<Libmodbus.Call>
    {
      var created := if outcome == NoContext then Text.None else Text.Some(c);
      var first := [Libmodbus.Call.NewRtu(port, baud, parity, dataBits, stopBits, rts, created)];
      match outcome
      case NoContext => first
      case BadSlave => first + [Libmodbus.Call.SetSlave(c, slave), Libmodbus.Call.Free(c)]
      case _ => first + [Libmodbus.Call.SetSlave(c, slave)] + EstablishCalls(c, t, outcome == Connected)
    }

    /**
     * modbusConnectRTU: disconnects first, then creates a context for the
     * serial port, sets the slave id and connects. It becomes connected only
     * when all three succeed. A missing context or a refused slave id returns
     * early with no log line and no mode; a refused or accepted connection
     * logs one line and sets the mode to RTU. The timeout is always stored.
     */
    method ConnectRTU(port: string, baud: int, parity: char, dataBits: int, stopBits: int, rts: int, t: int)
      returns (ghost outcome: ConnectOutcome, ghost c: nat)
      requires Valid()
      modifies this`handle, this`connected, this`mode, this`timeOut, lib`live, lib`calls, lib`next, lib`errno, rawModel, infoBar
      ensures Valid()
      ensures outcome != BlankAddress && timeOut == t
      ensures connected <==> outcome == Connected
      ensures handle == OutcomeHandle(outcome, c)
      ensures mode == if outcome == NoContext || outcome == BadSlave then EUtils.None else EUtils.RTU
      ensures rawModel.lines == old(rawModel.lines) + RtuLog(port, outcome)
      ensures infoBar.banner == RtuBanner(outcome)
      ensures lib.calls == old(lib.calls) + DisconnectCalls(old(handle))
                           + RtuCalls(port, baud, parity, dataBits, stopBits, rts, slave, t, outcome, c)
    {
      DisConnect();
      outcome, c := OpenRtu(port, baud, parity, dataBits, stopBits, rts, t);
    }

    /** The part of modbusConnectRTU after its disconnect. */
    method OpenRtu(port: string, baud: int, parity: char, dataBits: int, stopBits: int, rts: int, t: int)
      returns (ghost outcome: ConnectOutcome, ghost c: nat)
      requires Valid() && handle == Null && !connected && mode == EUtils.None
      modifies this`handle, this`connected, this`mode, this`timeOut, lib`live, lib`calls, lib`next, lib`errno, rawModel, infoBar
      ensures Valid()
      ensures outcome != BlankAddress && timeOut == t
      ensures connected <==> outcome == Connected
      ensures handle == OutcomeHandle(outcome, c)
      ensures mode == if outcome == NoContext || outcome == BadSlave then EUtils.None else EUtils.RTU
      ensures rawModel.lines == old(rawModel.lines) + RtuLog(port, outcome)
      ensures infoBar.banner == RtuBanner(outcome)
      ensures lib.calls == old(lib.calls) + RtuCalls(port, baud, parity, dataBits, stopBits, rts, slave, t, outcome, c)
    {
      var ctx := lib.NewRtu(port, baud, parity, dataBits, stopBits, rts);
      timeOut := t;
      c := 0;
      if ctx.None? {
        infoBar.ShowError(NoContextText);
        outcome := NoContext;
        return;
      }
      var id := ctx.value;
      c := id;
      handle := Live(id);
      ghost var calls1 := lib.calls;
      outcome := ConfigureRtu(id, port, t);
      assert lib.calls == calls1 + RtuTail(id, slave, t, outcome);
    }

    /** The library calls of an RTU connect once its context `c` exists. */
    static function RtuTail(c: nat, slave: int, t: int, outcome: ConnectOutcome): seq<Libmodbus.Call>
    {
      [Libmodbus.Call.SetSlave(c, slave)] +
      (if outcome == BadSlave then [Libmodbus.Call.Free(c)] else EstablishCalls(c, t, outcome == Connected))
    }

    /**
     * The part of an RTU connect after the context `id` was created: a
     * refused slave id frees the context (it dangles) and shows the error,
     * otherwise the shared connect tail runs.
     */
    method ConfigureRtu(id: nat, port: string, t: int) returns (ghost outcome: ConnectOutcome)
      requires lib.Valid() && id in lib.live && !connected
      modifies this`handle, this`connected, this`mode, lib`live, lib`calls, lib`errno, rawModel, infoBar
      ensures lib.Valid()
      ensures outcome == BadSlave || outcome == Refused || outcome == Connected
      ensures connected <==> outcome == Connected
      ensures handle == if outcome == Connected then Live(id) else Dangling(id)
      ensures outcome == BadSlave ==> mode == old(mode)
      ensures outcome != BadSlave ==> mode == EUtils.RTU
      ensures lib.live == if outcome == Connected then old(lib.live) else old(lib.live) - {id}
      ensures rawModel.lines == old(rawModel.lines) + RtuLog(port, outcome)
      ensures infoBar.banner == RtuBanner(outcome)
      ensures lib.calls == old(lib.calls) + RtuTail(id, slave, t, outcome)
    {
      var rc := lib.SetSlave(id, slave);
      if rc == -1 {
        lib.Free(id);
        handle := Dangling(id);
        infoBar.ShowError(BadSlaveText);
        outcome := BadSlave;
        return;
      }
      var ok := Establish(id, t, SerialRefusedText, EUtils.RTU, RtuLine(port) + "OK", RtuLine(port) + "Failed");
      outcome := if ok then Connected else Refused;
    }

    /** The library calls of a TCP connect after its disconnect, by outcome. */
    static function TcpCalls(stripped: string, port: int, t: int, outcome: ConnectOutcome, c: nat): seq<Libmodbus.Call>
    {
      var created := if outcome == NoContext then Text.None else Text.Some(c);
      var first := [Libmodbus.Call.NewTcp(stripped, port, created)];
      match outcome
      case BlankAddress => []
      case NoContext => first
      case _ => first + EstablishCalls(c, t, outcome == Connected)
    }

    /**
     * modbusConnectTCP: disconnects first, normalises the address with
     * stripIP and gives up with "Blank IP Address." when that is empty,
     * before the timeout is stored. Otherwise it creates a context for the
     * stripped address and connects; connected only on success. A missing
     * context returns early with no log line and no mode; a refused or
     * accepted connection logs one line and sets the mode to TCP.
     */
    method ConnectTCP(ip: string, port: Text.Int32, t: int)
      returns (ghost outcome: ConnectOutcome, ghost c: nat)
      requires Valid()
      modifies this`handle, this`connected, this`mode, this`timeOut, lib`live, lib`calls, lib`next, lib`errno, rawModel, infoBar
      ensures Valid()
      ensures outcome != BadSlave
      ensures outcome == BlankAddress <==> StrippedIP(ip) == ""
      ensures timeOut == if outcome == BlankAddress then old(timeOut) else t
      ensures connected <==> outcome == Connected
      ensures handle == OutcomeHandle(outcome, c)
      ensures mode == if outcome == NoContext || outcome == BlankAddress then EUtils.None else EUtils.TCP
      ensures rawModel.lines == old(rawModel.lines) + TcpLog(ip, port, outcome)
      ensures infoBar.banner == TcpBanner(outcome)
      ensures lib.calls == old(lib.calls) + DisconnectCalls(old(handle)) + TcpCalls(StrippedIP(ip), port, t, outcome, c)
    {
      DisConnect();
      outcome, c := OpenTcp(ip, port, t);
    }

    /** The part of modbusConnectTCP after its disconnect. */
    method OpenTcp(ip: string, port: Text.Int32, t: int)
      returns (ghost outcome: ConnectOutcome, ghost c: nat)
      requires Valid() && handle == Null && !connected && mode == EUtils.None
      modifies this`handle, this`connected, this`mode, this`timeOut, lib`live, lib`calls, lib`next, lib`errno, rawModel, infoBar
      ensures Valid()
      ensures outcome != BadSlave
      ensures outcome == BlankAddress <==> StrippedIP(ip) == ""
      ensures timeOut == if outcome == BlankAddress then old(timeOut) else t
      ensures connected <==> outcome == Connected
      ensures handle == OutcomeHandle(outcome, c)
      ensures mode == if outcome == NoContext || outcome == BlankAddress then EUtils.None else EUtils.TCP
      ensures rawModel.lines == old(rawModel.lines) + TcpLog(ip, port, outcome)
      ensures infoBar.banner == TcpBanner(outcome)
      ensures lib.calls == old(lib.calls) + TcpCalls(StrippedIP(ip), port, t, outcome, c)
    {
      var stripped := StripIP(ip);
      c := 0;
      if stripped == "" {
        infoBar.ShowError(BlankAddressText);
        outcome := BlankAddress;
        return;
      }
      outcome, c := OpenTcpContext(ip, stripped, port, t);
    }

    /** The part of modbusConnectTCP after a non-blank address has been stripped. */
    method OpenTcpContext(ip: string, stripped: string, port: Text.Int32, t: int)
      returns (ghost outcome: ConnectOutcome, ghost c: nat)
      requires Valid() && handle == Null && !connected && mode == EUtils.None
      modifies this`handle, this`connected, this`mode, this`timeOut, lib`live, lib`calls, lib`next, lib`errno, rawModel, infoBar
      ensures Valid()
      ensures outcome == NoContext || outcome == Refused || outcome == Connected
      ensures timeOut == t
      ensures connected <==> outcome == Connected
      ensures handle == OutcomeHandle(outcome, c)
      ensures mode == if outcome == NoContext then EUtils.None else EUtils.TCP
      ensures rawModel.lines == old(rawModel.lines) + TcpLog(ip, port, outcome)
      ensures infoBar.banner == TcpBanner(outcome)
      ensures lib.calls == old(lib.calls) + TcpCalls(stripped, port, t, outcome, c)
    {
      c := 0;
      var ctx := lib.NewTcp(stripped, port);
      infoBar.Hide();
      timeOut := t;
      if ctx.None? {
        infoBar.ShowError(NoContextText);
        outcome := NoContext;
        return;
      }
      var id := ctx.value;
      c := id;
      handle := Live(id);
      ghost var calls1, lines1 := lib.calls, rawModel.lines;
      assert lines1 == old(rawModel.lines);
      var ok := Establish(id, t, TcpRefusedText, EUtils.TCP, TcpLine(ip, port) + " OK", TcpLine(ip, port) + " Failed");
      outcome := if ok then Connected else Refused;
      assert lib.calls == calls1 + EstablishCalls(id, t, ok);
      assert rawModel.lines == lines1 + TcpLog(ip, port, outcome);
      assert TcpCalls(stripped, port, t, outcome, c) == [Libmodbus.Call.NewTcp(stripped, port, ctx)] + EstablishCalls(id, t, ok);
    }

    /**
     * stripIP: "" unless the address has exactly four dot-separated parts;
     * otherwise each part becomes the decimal form of its integer value
     * ("127.000.000.001" becomes "127.0.0.1").
     */
    method StripIP(ip: string) returns (res: string)
      ensures res == StrippedIP(ip)
    {
      var ipBytes := Text.Split(ip, '.');
      res := "";
      if |ipBytes| == 4 {
        res := Text.Decimal(Text.ToInt(ipBytes[0]));
        assert NormalisedParts(ipBytes[..1]) == [res];
        var i := 1;
        while i < |ipBytes|
          invariant 1 <= i <= 4
          invariant res == Text.Join(NormalisedParts(ipBytes[..i]), '.')
        {
          var part := Text.Decimal(Text.ToInt(ipBytes[i]));
          StripStep(ipBytes, i);
          res := res + "." + part;
          i := i + 1;
        }
        assert ipBytes[..4] == ipBytes;
      }
    }

    // -------------------------------------------------------------------------
    // Transactions

    /** The values a successful read of `n` items received, from the buffer its function code uses. */
    function Received(fc: int, n: int): (r: seq<int>)
      reads dest, dest16
      ensures var len := if fc == EUtils.ReadHoldingRegisters || fc == EUtils.ReadInputRegisters then dest16.Length else dest.Length;
        |r| == if n < 0 then 0 else if n > len then len else n
    {
      var is16 := fc == EUtils.ReadHoldingRegisters || fc == EUtils.ReadInputRegisters;
      var len := if is16 then dest16.Length else dest.Length;
      var k := if n < 0 then 0 else if n > len then len else n;
      if is16 then Widened(dest16[..k], (w: Libmodbus.Word) => w as int)
      else Widened(dest[..k], (b: Libmodbus.Byte) => b as int)
    }

    /** Entry i of what a read received is entry i of the register buffer for register reads, of the bit buffer otherwise. */
    lemma ReceivedValues(fc: int, n: int)
      ensures var r := Received(fc, n);
        forall i :: 0 <= i < |r| ==>
          r[i] == if fc == EUtils.ReadHoldingRegisters || fc == EUtils.ReadInputRegisters then dest16[i] as int else dest[i] as int
    {
    }

    /**
     * The success path of modbusReadData: row i of the table takes the i-th
     * received value, for every i below the count, from the register buffer
     * for register reads and the bit buffer otherwise.
     */
    method StoreReceived(fc: int, n: int, is16: bool)
      requires is16 == (fc == EUtils.ReadHoldingRegisters || fc == EUtils.ReadInputRegisters)
      requires n <= if is16 then dest16.Length else dest.Length
      modifies regModel`cells
      ensures regModel.cells == Models.Stored(old(regModel.cells), Received(fc, n))
    {
      ghost var cells0 := regModel.cells;
      ghost var data := Received(fc, n);
      var i := 0;
      while i < n
        invariant 0 <= i <= |data| && |data| == (if n < 0 then 0 else n)
        invariant regModel.cells == Models.Stored(cells0, data[..i])
      {
        var value := if is16 then dest16[i] as int else dest[i] as int;
        assert value == data[i];
        StoredSnoc(cells0, data[..i], value);
        assert data[..i + 1] == data[..i] + [value];
        regModel.SetValue(i, value);
        i := i + 1;
      }
      assert n > 0 ==> data[..i] == data;
    }

    /**
     * The failure path shared by modbusReadData and modbusWriteData: every
     * cell becomes invalid, one error is counted, one line is logged whose
     * text depends on the sign of the result, the error is shown under
     * "`operation` data failed." and the context is flushed.
     */
    method ReportFailure(c: nat, operation: string, r: int)
      requires c in lib.live
      modifies this`errors, regModel`cells, rawModel, infoBar, lib`calls, lib`errno
      ensures regModel.cells == Models.Invalidated(old(regModel.cells)) && errors == old(errors) + 1
      ensures rawModel.lines == old(rawModel.lines) + [Models.LogLine(Models.SysStamp, FailureLogText(r, Reason(old(lib.errno))))]
      ensures infoBar.banner == Models.Error(FailureBannerText(operation, r, Reason(old(lib.errno))))
      ensures lib.calls == old(lib.calls) + [Libmodbus.Call.Flush(c)]
    {
      regModel.SetNoValidValues();
      errors := errors + 1;
      var reason := EUtils.LibmodbusStrerror(lib.errno, lib.errno, lib.strerror);
      var line: string;
      if r < 0 {
        line := "Error : " + reason;
      } else {
        line := MismatchText + reason;
      }
      rawModel.AddLine(Models.LogLine(Models.SysStamp, line));
      infoBar.ShowError(operation + " data failed.\n" + line);
      lib.Flush(c);
    }

    /**
     * The switch of modbusReadData: the read primitive for the function code
     * into the bit buffer or the register buffer; -1 for any other code.
     */
    method ReadPrimitive(c: nat, fc: int, start: int, n: int) returns (r: int, is16: bool, traffic: seq<Libmodbus.Frame>)
      requires Valid() && c in lib.live
      modifies lib`calls, lib`errno, dest, dest16
      ensures is16 == (fc == EUtils.ReadHoldingRegisters || fc == EUtils.ReadInputRegisters)
      ensures r == n ==> n <= if is16 then dest16.Length else dest.Length
      ensures !EUtils.IsReadFunction(fc) ==> r == -1 && traffic == []
      ensures lib.calls == old(lib.calls) + ReadCalls(c, fc, start, n)
    {
      r, is16, traffic := -1, false, [];
      if fc == EUtils.ReadCoils {
        r, traffic := lib.ReadBits(c, start, n, dest);
      } else if fc == EUtils.ReadDiscreteInputs {
        r, traffic := lib.ReadInputBits(c, start, n, dest);
      } else if fc == EUtils.ReadHoldingRegisters {
        r, traffic := lib.ReadRegisters(c, start, n, dest16);
        is16 := true;
      } else if fc == EUtils.ReadInputRegisters {
        r, traffic := lib.ReadInputRegisters(c, start, n, dest16);
        is16 := true;
      }
    }

    /**
     * The part of the state a transaction changes: the library trace, the
     * table, the error count, the log, the bar and the pending flag.
     */
    ghost function Snapshot(): View
      reads this`errors, this`transactionIsPending, lib`calls, regModel`cells, rawModel`lines, infoBar`banner
    {
      View(lib.calls, regModel.cells, errors, rawModel.lines, infoBar.banner, transactionIsPending)
    }

    /**
     * modbusReadData: reads `n` items from `start` of `slave` with a read
     * function code; a read counts as successful exactly when the primitive
     * returns `n`.
     */
    method ReadData(slave: int, fc: int, start: int, n: int) returns (ghost ret: int, ghost err: int, ghost traffic: seq<Libmodbus.Frame>)
      requires Valid() && !handle.Dangling?
      modifies this`errors, this`transactionIsPending, lib`calls, lib`errno, regModel`cells, rawModel, infoBar, dest, dest16
      ensures Valid()
      ensures Snapshot() == ReadOutcome(old(Snapshot()), handle, mode, slave, fc, start, n, traffic, Received(fc, n), ret, Reason(err))
      ensures !EUtils.IsReadFunction(fc) ==> traffic == []
    {
      ret, err, traffic := -1, 0, [];
      if handle.Null? {
        return;
      }
      var c := handle.ctx;
      var _ := lib.SetSlave(c, slave);
      var r, is16, frames := ReadPrimitive(c, fc, start, n);
      ret, err, traffic := r, lib.errno, frames;
      Monitor(frames);
      if r == n {
        StoreReceived(fc, n, is16);
        infoBar.Hide();
      } else {
        ReportFailure(c, "Read", r);
      }
    }

    /** The coil buffer of a multiple-coil write: the table's first n values as bytes. */
    method CoilBuffer(n: nat) returns (data: array<Libmodbus.Byte>)
      ensures fresh(data) && data[..] == CoilValues(regModel.cells, n)
    {
      data := new Libmodbus.Byte[n];
      var i := 0;
      while i < n
        invariant 0 <= i <= n
        invariant forall j :: 0 <= j < i ==> data[j] == AsByte(regModel.Value(j))
      {
        data[i] := AsByte(regModel.Value(i));
        i := i + 1;
      }
    }

    /** The register buffer of a multiple-register write: the table's first n values as words. */
    method RegisterBuffer(n: nat) returns (data: array<Libmodbus.Word>)
      ensures fresh(data) && data[..] == RegisterValues(regModel.cells, n)
    {
      data := new Libmodbus.Word[n];
      var i := 0;
      while i < n
        invariant 0 <= i <= n
        invariant forall j :: 0 <= j < i ==> data[j] == AsWord(regModel.Value(j))
      {
        data[i] := AsWord(regModel.Value(i));
        i := i + 1;
      }
    }

    /**
     * The switch of modbusWriteData: the write primitive for the function
     * code with the table's values, and the count its result is checked
     * against; -1 for any other code.
     */
    method WritePrimitive(c: nat, fc: int, start: int, n: int) returns (r: int, count: int, traffic: seq<Libmodbus.Frame>)
      requires Valid() && c in lib.live
      requires fc == EUtils.WriteMultipleCoils || fc == EUtils.WriteMultipleRegisters ==> n >= 0
      modifies lib`calls, lib`errno
      ensures count == WriteCount(fc, n)
      ensures !EUtils.IsWriteFunction(fc) ==> r == -1 && traffic == []
      ensures lib.calls == old(lib.calls) + WriteCalls(c, fc, start, n, regModel.cells)
    {
      r, count, traffic := -1, n, [];
      if fc == EUtils.WriteSingleCoil {
        r, traffic := lib.WriteBit(c, start, regModel.Value(0));
        count := 1;
      } else if fc == EUtils.WriteSingleRegister {
        r, traffic := lib.WriteRegister(c, start, AsWord(regModel.Value(0)));
        count := 1;
      } else if fc == EUtils.WriteMultipleCoils {
        var data := CoilBuffer(n);
        r, traffic := lib.WriteBits(c, start, n, data);
        assert data[..n] == data[..];
      } else if fc == EUtils.WriteMultipleRegisters {
        var data := RegisterBuffer(n);
        r, traffic := lib.WriteRegisters(c, start, n, data);
        assert data[..n] == data[..];
      }
    }

    /**
     * modbusWriteData: writes the table's first value (single coil or
     * register, whatever `n` is) or its first `n` values in order (multiple
     * coils or registers) to `start` of `slave`.
     */
    method WriteData(slave: int, fc: int, start: int, n: int) returns (ghost ret: int, ghost err: int, ghost traffic: seq<Libmodbus.Frame>)
      requires Valid() && !handle.Dangling?
      requires fc == EUtils.WriteMultipleCoils || fc == EUtils.WriteMultipleRegisters ==> n >= 0
      modifies this`errors, this`transactionIsPending, lib`calls, lib`errno, regModel`cells, rawModel, infoBar
      ensures Valid()
      ensures Snapshot() == WriteOutcome(old(Snapshot()), handle, mode, slave, fc, start, n, traffic, ret, Reason(err))
      ensures !EUtils.IsWriteFunction(fc) ==> traffic == []
    {
      ret, err, traffic := -1, 0, [];
      if handle.Null? {
        return;
      }
      var c := handle.ctx;
      var _ := lib.SetSlave(c, slave);
      var r, count, frames := WritePrimitive(c, fc, start, n);
      ret, err, traffic := r, lib.errno, frames;
      Monitor(frames);
      if r == count {
        rawModel.AddLine(Models.LogLine(Models.SysStamp, WrittenText));
        infoBar.Hide();
      } else {
        ReportFailure(c, "Write", r);
      }
    }

    /**
     * modbusTransaction: counts one packet and emits one refresh on every
     * call; a read code runs one read, a write code one write, and any other
     * code nothing else.
     */
    method Transaction() returns (ghost ret: int, ghost err: int, ghost traffic: seq<Libmodbus.Frame>)
      requires Valid() && !handle.Dangling?
      requires functionCode == EUtils.WriteMultipleCoils || functionCode == EUtils.WriteMultipleRegisters ==> numOfRegs >= 0
      modifies this`packets, this`refreshes, this`errors, this`transactionIsPending, lib`calls, lib`errno, regModel`cells,
        rawModel, infoBar, dest, dest16
      ensures Valid()
      ensures packets == old(packets) + 1 && refreshes == old(refreshes) + 1
      ensures EUtils.IsReadFunction(functionCode) ==>
        Snapshot() == ReadOutcome(old(Snapshot()), handle, mode, slave, functionCode, startAddr, numOfRegs, traffic,
                                  Received(functionCode, numOfRegs), ret, Reason(err))
      ensures EUtils.IsWriteFunction(functionCode) ==>
        Snapshot() == WriteOutcome(old(Snapshot()), handle, mode, slave, functionCode, startAddr, numOfRegs, traffic, ret, Reason(err))
      ensures !EUtils.IsSupportedFunction(functionCode) ==> Snapshot() == old(Snapshot())
    {
      packets := packets + 1;
      ret, err, traffic := -1, 0, [];
      if EUtils.IsReadFunction(functionCode) {
        ret, err, traffic := ReadData(slave, functionCode, startAddr, numOfRegs);
      } else if EUtils.IsWriteFunction(functionCode) {
        ret, err, traffic := WriteData(slave, functionCode, startAddr, numOfRegs);
      }
      refreshes := refreshes + 1;
    }

    /**
     * addItems: rebuilds the register table for the stored request (editable
     * for write codes). When connected and the code writes coils, it reads the
     * coils back once; when it writes registers, it reads the holding
     * registers back once; each read-back emits one refresh. Disconnected, or
     * with any other code, nothing else happens.
     */
    method AddItems() returns (ghost ret: int, ghost err: int, ghost traffic: seq<Libmodbus.Frame>)
      requires Valid() && !handle.Dangling?
      modifies this`refreshes, this`errors, this`transactionIsPending, lib`calls, lib`errno, regModel, rawModel, infoBar, dest, dest16
      ensures Valid()
      ensures regModel.startAddr == startAddr && regModel.isWrite == EUtils.IsWriteFunction(functionCode)
      ensures regModel.is16Bit == old(regModel.is16Bit)
      ensures refreshes == old(refreshes) + (if connected && EUtils.IsWriteFunction(functionCode) then 1 else 0)
      ensures Snapshot() == AddItemsOutcome(old(Snapshot()), connected, handle, mode, slave, functionCode, startAddr, numOfRegs,
                                            traffic, Received(ReadBackFunction(functionCode), numOfRegs), ret, Reason(err))
    {
      ret, err, traffic := -1, 0, [];
      regModel.AddItems(startAddr, numOfRegs, EUtils.IsWriteFunction(functionCode));
      ghost var table := Snapshot();
      assert table == old(Snapshot()).(cells := Models.FreshCells(numOfRegs));
      if connected && EUtils.IsWriteFunction(functionCode) {
        var fc := ReadBackFunction(functionCode);
        ret, err, traffic := ReadData(slave, fc, startAddr, numOfRegs);
        assert Snapshot() == ReadOutcome(table, handle, mode, slave, fc, startAddr, numOfRegs, traffic, Received(fc, numOfRegs), ret, Reason(err));
        refreshes := refreshes + 1;
      }
    }

    // -------------------------------------------------------------------------
    // Bus monitor

    /** The hex line of the first `dataLen` bytes of a frame, built one byte at a time. */
    method HexDump(data: array<Libmodbus.Byte>, dataLen: int) returns (line: string)
      requires dataLen <= data.Length
      ensures line == HexLine(data[..if dataLen < 0 then 0 else dataLen])
    {
      line := "";
      var i := 0;
      while i < dataLen
        invariant 0 <= i <= (if dataLen < 0 then 0 else dataLen)
        invariant line == HexLine(data[..i])
      {
        HexLineSnoc(data[..i], data[i]);
        assert data[..i + 1] == data[..i] + [data[i]];
        line := line + HexPair(data[i]) + "  ";
        i := i + 1;
      }
    }

    /** busMonitorRequestData: logs the sent frame in upper-case hex, stamped as sent in the current mode. */
    method BusMonitorRequestData(data: array<Libmodbus.Byte>, dataLen: int)
      requires dataLen <= data.Length
      modifies rawModel, this`transactionIsPending
      ensures rawModel.lines == old(rawModel.lines) +
        [Models.LogLine(Models.TxStamp(mode), Text.ToUpper(HexLine(data[..if dataLen < 0 then 0 else dataLen])))]
      ensures transactionIsPending
    {
      var line := HexDump(data, dataLen);
      rawModel.AddLine(Models.LogLine(Models.TxStamp(mode), Text.ToUpper(line)));
      transactionIsPending := true;
    }

    /** busMonitorResponseData: logs the received frame the same way, stamped as received. */
    method BusMonitorResponseData(data: array<Libmodbus.Byte>, dataLen: int)
      requires dataLen <= data.Length
      modifies rawModel, this`transactionIsPending
      ensures rawModel.lines == old(rawModel.lines) +
        [Models.LogLine(Models.RxStamp(mode), Text.ToUpper(HexLine(data[..if dataLen < 0 then 0 else dataLen])))]
      ensures !transactionIsPending
    {
      var line := HexDump(data, dataLen);
      rawModel.AddLine(Models.LogLine(Models.RxStamp(mode), Text.ToUpper(line)));
      transactionIsPending := false;
    }

    /** The traffic hook for one frame, run on an array holding the frame's bytes. */
    method Hook(f: Libmodbus.Frame)
      modifies rawModel, this`transactionIsPending
      ensures rawModel.lines == old(rawModel.lines) + [MonitorLine(mode, f)]
      ensures transactionIsPending == f.Request?
    {
      var data := new Libmodbus.Byte[|f.bytes|](j requires 0 <= j < |f.bytes| => f.bytes[j]);
      assert data[..|f.bytes|] == f.bytes;
      if f.Request? {
        BusMonitorRequestData(data, |f.bytes|);
      } else {
        BusMonitorResponseData(data, |f.bytes|);
      }
    }

    /**
     * The traffic hooks the library runs during one call, one frame after the
     * other: busMonitorRequestData for each request, busMonitorResponseData
     * for each reply, each on the frame's bytes.
     */
    method Monitor(traffic: seq<Libmodbus.Frame>)
      modifies rawModel, this`transactionIsPending
      ensures rawModel.lines == old(rawModel.lines) + MonitorLines(mode, traffic)
      ensures transactionIsPending == PendingAfter(old(transactionIsPending), traffic)
    {
      ghost var lines0, pending0 := rawModel.lines, transactionIsPending;
      var i := 0;
      while i < |traffic|
        invariant 0 <= i <= |traffic|
        invariant rawModel.lines == lines0 + MonitorLines(mode, traffic[..i])
        invariant transactionIsPending == PendingAfter(pending0, traffic[..i])
      {
        MonitorSnoc(mode, pending0, traffic, i);
        Hook(traffic[i]);
        i := i + 1;
      }
      assert traffic[..i] == traffic;
    }

    // -------------------------------------------------------------------------
    // Request fields, counters and the poll timer

    method SetSlave(s: int)
      modifies this`slave
      ensures slave == s
    {
      slave := s;
    }

    method SetFunctionCode(fc: int)
      modifies this`functionCode
      ensures functionCode == fc
    {
      functionCode := fc;
    }

    method SetStartAddr(addr: int)
      modifies this`startAddr
      ensures startAddr == addr
    {
      startAddr := addr;
    }

    method SetNumOfRegs(num: int)
      modifies this`numOfRegs
      ensures numOfRegs == num
    {
      numOfRegs := num;
    }

    method SetScanRate(rate: int)
      modifies this`scanRate
      ensures scanRate == rate
    {
      scanRate := rate;
    }

    method SetTimeOut(t: int)
      modifies this`timeOut
      ensures timeOut == t
    {
      timeOut := t;
    }

    /** resetCounters: both counters back to zero, and one refresh. */
    method ResetCounters()
      modifies this`packets, this`errors, this`refreshes
      ensures packets == 0 && errors == 0 && refreshes == old(refreshes) + 1
    {
      packets := 0;
      errors := 0;
      refreshes := refreshes + 1;
    }

    /** startPollTimer: the timer runs with the stored scan rate as its interval. */
    method StartPollTimer()
      modifies this`pollRunning, this`pollInterval
      ensures pollRunning && pollInterval == scanRate
    {
      pollRunning := true;
      pollInterval := scanRate;
    }

    method StopPollTimer()
      modifies this`pollRunning
      ensures !pollRunning
    {
      pollRunning := false;
    }
  }

  /** addItems leaves a table of exactly `n` rows (none for a negative `n`), read back or not. */
  lemma AddItemsRows(v: View, connected: bool, h: Handle, mode: EUtils.Mode, slave: int, fc: int, start: int, n: int,
                     traffic: seq<Libmodbus.Frame>, received: seq<int>, ret: int, reason: string)
    ensures |AddItemsOutcome(v, connected, h, mode, slave, fc, start, n, traffic, received, ret, reason).cells| ==
      if n < 0 then 0 else n
  {
  }

  lemma StoredSnoc(cells: seq<Models.Cell>, d: seq<int>, v: int)
    ensures Models.Stored(cells, d + [v]) ==
      if |d| < |cells| then Models.Stored(cells, d)[|d| := Models.Cell(v, true)] else Models.Stored(cells, d)
  {
  }

  /**
   * Line i of the hook lines of a call is stamped as sent exactly when frame
   * i is a request, and its text decodes to exactly that frame's bytes: the
   * raw log records every frame, in order.
   */
  lemma {:induction false} MonitorLinesRecord(mode: EUtils.Mode, traffic: seq<Libmodbus.Frame>)
    ensures forall i :: 0 <= i < |traffic| ==>
      && (MonitorLines(mode, traffic)[i].stamp == if traffic[i].Request? then Models.TxStamp(mode) else Models.RxStamp(mode))
      && DecodeHexLine(MonitorLines(mode, traffic)[i].text) == Text.Some(traffic[i].bytes)
  {
    forall i | 0 <= i < |traffic|
      ensures MonitorLines(mode, traffic)[i].stamp == if traffic[i].Request? then Models.TxStamp(mode) else Models.RxStamp(mode)
      ensures DecodeHexLine(MonitorLines(mode, traffic)[i].text) == Text.Some(traffic[i].bytes)
    {
      MonitorLinesAt(mode, traffic, i);
      HexLineRoundTrip(traffic[i].bytes);
    }
  }

  /** Line i of the hook lines is the line of frame i. */
  lemma {:induction false} MonitorLinesAt(mode: EUtils.Mode, traffic: seq<Libmodbus.Frame>, i: int)
    requires 0 <= i < |traffic|
    ensures MonitorLines(mode, traffic)[i] == MonitorLine(mode, traffic[i])
    decreases |traffic|
  {
    var k := |traffic| - 1;
    if i < k {
      MonitorLinesAt(mode, traffic[..k], i);
    }
  }

  /** The hook lines and the pending flag of the first i + 1 frames extend those of the first i by frame i. */
  lemma MonitorSnoc(mode: EUtils.Mode, pending: bool, traffic: seq<Libmodbus.Frame>, i: int)
    requires 0 <= i < |traffic|
    ensures MonitorLines(mode, traffic[..i + 1]) == MonitorLines(mode, traffic[..i]) + [MonitorLine(mode, traffic[i])]
    ensures PendingAfter(pending, traffic[..i + 1]) == traffic[i].Request?
  {
    assert traffic[..i + 1][..i] == traffic[..i];
  }

  /**
   * A read with a live context keeps the number of rows. It succeeds exactly
   * when the result equals the requested count; success stores the
   * received values as valid cells, keeps the error count and hides the bar;
   * failure keeps every value, clears every valid flag, counts one error and
   * shows an error. The log gains the hook lines of the read's frames, then
   * nothing more on success and the failure line otherwise; the last frame
   * decides whether a transaction is left pending.
   */
  lemma ReadOutcomeTable(v: View, h: Handle, mode: EUtils.Mode, slave: int, fc: int, start: int, n: int,
                         traffic: seq<Libmodbus.Frame>, received: seq<int>, ret: int, reason: string)
    requires h.Live?
    ensures var w := ReadOutcome(v, h, mode, slave, fc, start, n, traffic, received, ret, reason);
      && |w.cells| == |v.cells|
      && (ret == n <==> w.errors == v.errors)
      && (ret != n <==> w.errors == v.errors + 1)
      && (ret == n <==> w.banner == Models.Hidden)
      && (ret == n ==> forall i :: 0 <= i < |w.cells| ==>
            w.cells[i] == if i < |received| then Models.Cell(received[i], true) else v.cells[i])
      && (ret != n ==> forall i :: 0 <= i < |w.cells| ==> w.cells[i] == Models.Cell(v.cells[i].value, false))
      && w.lines == v.lines + MonitorLines(mode, traffic) +
           (if ret == n then [] else [Models.LogLine(Models.SysStamp, FailureLogText(ret, reason))])
      && w.pending == PendingAfter(v.pending, traffic)
  {
  }

  /**
   * A write never changes a value in the table; success keeps the table as
   * it is. After the hook lines of the write's frames exactly one line of
   * the adapter's own is logged: "values written correctly." on success,
   * the failure line otherwise.
   */
  lemma WriteKeepsValues(v: View, h: Handle, mode: EUtils.Mode, slave: int, fc: int, start: int, n: int,
                         traffic: seq<Libmodbus.Frame>, ret: int, reason: string)
    requires h.Live?
    requires fc == EUtils.WriteMultipleCoils || fc == EUtils.WriteMultipleRegisters ==> n >= 0
    ensures var w := WriteOutcome(v, h, mode, slave, fc, start, n, traffic, ret, reason);
      && |w.cells| == |v.cells|
      && (forall i :: 0 <= i < |w.cells| ==> w.cells[i].value == v.cells[i].value)
      && (ret == WriteCount(fc, n) ==> w.cells == v.cells && w.errors == v.errors)
      && (ret != WriteCount(fc, n) ==> w.errors == v.errors + 1)
      && w.lines == v.lines + MonitorLines(mode, traffic) +
           [Models.LogLine(Models.SysStamp, if ret == WriteCount(fc, n) then WrittenText else FailureLogText(ret, reason))]
      && w.pending == PendingAfter(v.pending, traffic)
  {
  }

  /** Without a live context neither a read nor a write changes anything, not even the library trace. */
  lemma NoContextNoEffect(v: View, h: Handle, mode: EUtils.Mode, slave: int, fc: int, start: int, n: int,
                          traffic: seq<Libmodbus.Frame>, received: seq<int>, ret: int, reason: string)
    requires !h.Live?
    requires fc == EUtils.WriteMultipleCoils || fc == EUtils.WriteMultipleRegisters ==> n >= 0
    ensures ReadOutcome(v, h, mode, slave, fc, start, n, traffic, received, ret, reason) == v
    ensures WriteOutcome(v, h, mode, slave, fc, start, n, traffic, ret, reason) == v
  {
  }

  /**
   * After addItems with a successful read-back of all `n` requested items,
   * the table has exactly `n` rows and every one of them holds a valid
   * received value.
   */
  lemma AddItemsAllValid(v: View, h: Handle, mode: EUtils.Mode, slave: int, fc: int, start: int, n: int,
                         traffic: seq<Libmodbus.Frame>, received: seq<int>, ret: int, reason: string)
    requires h.Live? && EUtils.IsWriteFunction(fc)
    requires ret == n && |received| == n
    ensures var w := AddItemsOutcome(v, true, h, mode, slave, fc, start, n, traffic, received, ret, reason);
      && |w.cells| == n
      && forall i :: 0 <= i < n ==> w.cells[i] == Models.Cell(received[i], true)
  {
  }
}
