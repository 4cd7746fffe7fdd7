/**
 * ModbusCommSettings: the program's 21 persistent settings, loaded from and
 * saved to a key/value store (QSettings). A stored value is a QVariant
 * holding either a string or an int; a missing key reads as a null variant.
 * Whether the program was built for Windows is a constant of each settings
 * object, since three of the load rules and `setSerialPort` depend on it.
 */
module Settings {
  import Text

  /** A stored QVariant: a string or an int. */
  datatype Variant = Str(text: string) | Int(number: Text.Int32)

  /** QVariant::toString: an int prints in decimal. */
  function AsString(v: Variant): string
  {
    match v
    case Str(s) => s
    case Int(n) => Text.Decimal(n)
  }

  /** QVariant::toInt: a string converts as Qt 5 does, its 64-bit value cut to an int. */
  function AsInt(v: Variant): Text.Int32
  {
    match v
    case Str(s) => Text.VariantToInt(s)
    case Int(n) => n
  }

  /**
   * The 21 keys the settings use. The store is keyed by them directly; Name
   * gives the QSettings key string each one stands for.
   */
  datatype Key =
    | TcpPortKey
    | SlaveIPKey
    | SerialDevKey
    | SerialPortKey
    | SerialPortNameKey
    | BaudKey
    | DataBitsKey
    | StopBitsKey
    | ParityKey
    | RtsKey
    | MaxNoOfLinesKey
    | BaseAddrKey
    | TimeOutKey
    | LoggingLevelKey
    | ModBusModeKey
    | SlaveIDKey
    | ScanRateKey
    | FunctionCodeKey
    | StartAddrKey
    | NoOfRegsKey
    | BaseKey

  function Name(k: Key): string
  {
    match k
    case TcpPortKey => "TCP/TCPPort"
    case SlaveIPKey => "TCP/SlaveIP"
    case SerialDevKey => "RTU/SerialDev"
    case SerialPortKey => "RTU/SerialPort"
    case SerialPortNameKey => "RTU/SerialPortName"
    case BaudKey => "RTU/Baud"
    case DataBitsKey => "RTU/DataBits"
    case StopBitsKey => "RTU/StopBits"
    case ParityKey => "RTU/Parity"
    case RtsKey => "RTU/RTS"
    case MaxNoOfLinesKey => "Var/MaxNoOfLines"
    case BaseAddrKey => "Var/BaseAddr"
    case TimeOutKey => "Var/TimeOut"
    case LoggingLevelKey => "Var/LoggingLevel"
    case ModBusModeKey => "Session/ModBusMode"
    case SlaveIDKey => "Session/SlaveID"
    case ScanRateKey => "Session/ScanRate"
    case FunctionCodeKey => "Session/FunctionCode"
    case StartAddrKey => "Session/StartAddr"
    case NoOfRegsKey => "Session/NoOfRegs"
    case BaseKey => "Session/Base"
  }

  /** The TCP group of the settings. */
  datatype TcpGroup = TcpGroup(tcpPort: string, slaveIP: string)

  /** The RTU group: the serial line. */
  datatype RtuGroup = RtuGroup(serialDev: string, serialPort: string, serialPortName: string,
                               baud: string, dataBits: string, stopBits: string, parity: string, rts: string)

  /** The Var group: log size, base address, response timeout and logging level. */
  datatype VarGroup = VarGroup(maxNoOfLines: string, baseAddr: string, timeOut: string, loggingLevel: Text.Int32)

  /** The Session group: the last request and how its values were shown. */
  datatype SessionGroup = SessionGroup(modbusMode: Text.Int32, slaveID: Text.Int32, scanRate: Text.Int32,
                                       functionCode: Text.Int32, startAddr: Text.Int32, noOfRegs: Text.Int32,
                                       base: Text.Int32)

  /** The values of the 21 fields, by store group. */
  datatype Record = Record(tcp: TcpGroup, rtu: RtuGroup, vars: VarGroup, session: SessionGroup)

  /**
   * The device name `setSerialPort` derives from a port number: on Windows
   * "COM" and the port, with the "\\.\" prefix above port 9; elsewhere the
   * device prefix followed by the port number minus one.
   */
  function SerialPortName(port: string, dev: string, windows: bool): string
  {
    if windows then
      if Text.ToInt(port) > 9 then "\\\\.\\COM" + port else "COM" + port
    else dev + Text.Decimal(Text.ToInt(port) - 1)
  }

  /** The string under `key`, or `default` when the key is missing. */
  function StrOr(s: map<Key, Variant>, key: Key, default: string): string
  {
    if key in s then AsString(s[key]) else default
  }

  /** The int under `key`, or `default` when the key is missing. */
  function IntOr(s: map<Key, Variant>, key: Key, default: Text.Int32): Text.Int32
  {
    if key in s then AsInt(s[key]) else default
  }

  function LoadedTcp(s: map<Key, Variant>): TcpGroup
  {
    TcpGroup(StrOr(s, TcpPortKey, "502"), StrOr(s, SlaveIPKey, "127.000.000.001"))
  }

  /**
   * The RTU group as `load` reads it. On Windows the serial device is always
   * "COM". A missing serial port becomes "1" with the device name derived
   * from it; a present one takes the stored device name as it is.
   */
  function LoadedRtu(s: map<Key, Variant>, windows: bool): RtuGroup
  {
    var dev := if windows then "COM" else StrOr(s, SerialDevKey, "/dev/ttyS");
    var port := StrOr(s, SerialPortKey, "1");
    var portName :=
      if SerialPortKey in s then StrOr(s, SerialPortNameKey, "")
      else if windows then "COM" + port
      else dev + Text.Decimal(Text.ToInt(port) - 1);
    RtuGroup(dev, port, portName, StrOr(s, BaudKey, "9600"), StrOr(s, DataBitsKey, "8"), StrOr(s, StopBitsKey, "1"),
             StrOr(s, ParityKey, "None"), StrOr(s, RtsKey, if windows then "Disable" else "None"))
  }

  /** The Var group as `load` reads it: the log size becomes "60" when missing or when its integer value is 0. */
  function LoadedVar(s: map<Key, Variant>): VarGroup
  {
    var maxLines := if MaxNoOfLinesKey !in s || AsInt(s[MaxNoOfLinesKey]) == 0 then "60" else AsString(s[MaxNoOfLinesKey]);
    VarGroup(maxLines, StrOr(s, BaseAddrKey, "0"), StrOr(s, TimeOutKey, "0"), IntOr(s, LoggingLevelKey, 3))
  }

  function LoadedSession(s: map<Key, Variant>): SessionGroup
  {
    SessionGroup(IntOr(s, ModBusModeKey, 0), IntOr(s, SlaveIDKey, 1), IntOr(s, ScanRateKey, 1000),
                 IntOr(s, FunctionCodeKey, 0), IntOr(s, StartAddrKey, 0), IntOr(s, NoOfRegsKey, 0),
                 IntOr(s, BaseKey, 1))
  }

  /** What `load` reads from the store `s`: each field from its key, or its default when the key is missing. */
  function Loaded(s: map<Key, Variant>, windows: bool): Record
  {
    Record(LoadedTcp(s), LoadedRtu(s, windows), LoadedVar(s), LoadedSession(s))
  }

  function SavedTcp(s: map<Key, Variant>, g: TcpGroup): map<Key, Variant>
  {
    s[TcpPortKey := Str(g.tcpPort)][SlaveIPKey := Str(g.slaveIP)]
  }

  function SavedRtu(s: map<Key, Variant>, g: RtuGroup): map<Key, Variant>
  {
    s[SerialDevKey := Str(g.serialDev)][SerialPortKey := Str(g.serialPort)][SerialPortNameKey := Str(g.serialPortName)]
     [BaudKey := Str(g.baud)][DataBitsKey := Str(g.dataBits)][StopBitsKey := Str(g.stopBits)]
     [ParityKey := Str(g.parity)][RtsKey := Str(g.rts)]
  }

  function SavedVar(s: map<Key, Variant>, g: VarGroup): map<Key, Variant>
  {
    s[MaxNoOfLinesKey := Str(g.maxNoOfLines)][BaseAddrKey := Str(g.baseAddr)][TimeOutKey := Str(g.timeOut)]
     [LoggingLevelKey := Int(g.loggingLevel)]
  }

  function SavedSession(s: map<Key, Variant>, g: SessionGroup): map<Key, Variant>
  {
    s[ModBusModeKey := Int(g.modbusMode)][SlaveIDKey := Int(g.slaveID)][ScanRateKey := Int(g.scanRate)]
     [FunctionCodeKey := Int(g.functionCode)][StartAddrKey := Int(g.startAddr)][NoOfRegsKey := Int(g.noOfRegs)]
     [BaseKey := Int(g.base)]
  }

  /** The store after `save`: every field written to its own key, strings as strings and ints as ints. */
  function Saved(s: map<Key, Variant>, r: Record): map<Key, Variant>
  {
    SavedSession(SavedVar(SavedRtu(SavedTcp(s, r.tcp), r.rtu), r.vars), r.session)
  }

  class ModbusCommSettings {
    /** Whether the program was built for Windows. */
    const windows: bool
    /** The object's own store (it derives from QSettings). */
    var entries: map<Key, Variant>

    /** The settings of the TCP, RTU, Var and Session sections, one field per section. */
    var tcp: TcpGroup
    var rtu: RtuGroup
    var vars: VarGroup
    var session: SessionGroup

    /** The current values of the 21 settings. */
    function Current(): Record
      reads this
    {
      Record(tcp, rtu, vars, session)
    }

    /** The constructor loads the settings from the object's own store. */
    constructor(entries: map<Key, Variant>, windows: bool)
      ensures this.entries == entries && this.windows == windows
      ensures Current() == Loaded(entries, windows)
    {
      this.entries := entries;
      this.windows := windows;
      new;
      Load(entries);
    }

    /** loadSettings: load from the object's own store. */
    method LoadSettings()
      modifies this`tcp, this`rtu, this`vars, this`session
      ensures Current() == Loaded(entries, windows)
    {
      Load(entries);
    }

    /** saveSettings: save into the object's own store. */
    method SaveSettings()
      modifies this`entries
      ensures entries == Saved(old(entries), Current())
    {
      entries := Save(entries);
    }

    /** load: every setting from its key in `e`, one section after the other, with the defaults for missing keys. */
    method Load(e: map<Key, Variant>)
      modifies this`tcp, this`rtu, this`vars, this`session
      ensures Current() == Loaded(e, windows)
    {
      LoadTcp(e);
      LoadRtu(e);
      LoadVar(e);
      LoadSession(e);
    }

    method LoadTcp(e: map<Key, Variant>)
      modifies this`tcp
      ensures tcp == LoadedTcp(e)
    {
      var tcpPort := StrOr(e, TcpPortKey, "502");
      var slaveIP := StrOr(e, SlaveIPKey, "127.000.000.001");
      tcp := TcpGroup(tcpPort, slaveIP);
    }

    method LoadRtu(e: map<Key, Variant>)
      modifies this`rtu
      ensures rtu == LoadedRtu(e, windows)
    {
      var serialDev := if windows then "COM" else StrOr(e, SerialDevKey, "/dev/ttyS");
      var serialPort, serialPortName;
      if SerialPortKey !in e {
        serialPort := "1";
        if windows {
          serialPortName := "COM" + serialPort;
        } else {
          serialPortName := serialDev;
          serialPortName := serialPortName + Text.Decimal(Text.ToInt(serialPort) - 1);
        }
      } else {
        serialPort := AsString(e[SerialPortKey]);
        serialPortName := StrOr(e, SerialPortNameKey, "");
      }
      var baud := StrOr(e, BaudKey, "9600");
      var dataBits := StrOr(e, DataBitsKey, "8");
      var stopBits := StrOr(e, StopBitsKey, "1");
      var parity := StrOr(e, ParityKey, "None");
      var rts := StrOr(e, RtsKey, if windows then "Disable" else "None");
      rtu := RtuGroup(serialDev, serialPort, serialPortName, baud, dataBits, stopBits, parity, rts);
    }

    method LoadVar(e: map<Key, Variant>)
      modifies this`vars
      ensures vars == LoadedVar(e)
    {
      var maxNoOfLines;
      if MaxNoOfLinesKey !in e || AsInt(e[MaxNoOfLinesKey]) == 0 {
        maxNoOfLines := "60";
      } else {
        maxNoOfLines := AsString(e[MaxNoOfLinesKey]);
      }
      var baseAddr := StrOr(e, BaseAddrKey, "0");
      var timeOut := StrOr(e, TimeOutKey, "0");
      var loggingLevel := IntOr(e, LoggingLevelKey, 3);
      vars := VarGroup(maxNoOfLines, baseAddr, timeOut, loggingLevel);
    }

    method LoadSession(e: map<Key, Variant>)
      modifies this`session
      ensures session == LoadedSession(e)
    {
      var modbusMode := IntOr(e, ModBusModeKey, 0);
      var slaveID := IntOr(e, SlaveIDKey, 1);
      var scanRate := IntOr(e, ScanRateKey, 1000);
      var functionCode := IntOr(e, FunctionCodeKey, 0);
      var startAddr := IntOr(e, StartAddrKey, 0);
      var noOfRegs := IntOr(e, NoOfRegsKey, 0);
      var base := IntOr(e, BaseKey, 1);
      session := SessionGroup(modbusMode, slaveID, scanRate, functionCode, startAddr, noOfRegs, base);
    }

    /** save: the store `e` with the 21 settings written into it, one key after the other. */
    method Save(e: map<Key, Variant>) returns (r: map<Key, Variant>)
      ensures r == Saved(e, Current())
    {
      r := e;
      r := r[TcpPortKey := Str(tcp.tcpPort)];
      r := r[SlaveIPKey := Str(tcp.slaveIP)];
      r := r[SerialDevKey := Str(rtu.serialDev)];
      r := r[SerialPortKey := Str(rtu.serialPort)];
      r := r[SerialPortNameKey := Str(rtu.serialPortName)];
      r := r[BaudKey := Str(rtu.baud)];
      r := r[DataBitsKey := Str(rtu.dataBits)];
      r := r[StopBitsKey := Str(rtu.stopBits)];
      r := r[ParityKey := Str(rtu.parity)];
      r := r[RtsKey := Str(rtu.rts)];
      r := r[MaxNoOfLinesKey := Str(vars.maxNoOfLines)];
      r := r[BaseAddrKey := Str(vars.baseAddr)];
      r := r[TimeOutKey := Str(vars.timeOut)];
      r := r[LoggingLevelKey := Int(vars.loggingLevel)];
      r := r[ModBusModeKey := Int(session.modbusMode)];
      r := r[SlaveIDKey := Int(session.slaveID)];
      r := r[ScanRateKey := Int(session.scanRate)];
      r := r[FunctionCodeKey := Int(session.functionCode)];
      r := r[StartAddrKey := Int(session.startAddr)];
      r := r[NoOfRegsKey := Int(session.noOfRegs)];
      r := r[BaseKey := Int(session.base)];
    }

    /** setSerialPort: the device prefix, the port, and the device name derived from both; nothing else changes. */
    method SetSerialPort(port: string, dev: string)
      modifies this`rtu
      ensures rtu == old(rtu).(serialDev := dev, serialPort := port, serialPortName := SerialPortName(port, dev, windows))
    {
      var serialPortName;
      var portNo := Text.ToInt(port);
      if windows {
        if portNo > 9 {
          serialPortName := "\\\\.\\COM" + port;
        } else {
          serialPortName := "COM" + port;
        }
      } else {
        serialPortName := dev;
        serialPortName := serialPortName + Text.Decimal(Text.ToInt(port) - 1);
      }
      rtu := rtu.(serialDev := dev, serialPort := port, serialPortName := serialPortName);
    }

    method SetTCPPort(v: string)
      modifies this`tcp
      ensures tcp == old(tcp).(tcpPort := v)
    {
      tcp := tcp.(tcpPort := v);
    }

    method SetSlaveIP(v: string)
      modifies this`tcp
      ensures tcp == old(tcp).(slaveIP := v)
    {
      tcp := tcp.(slaveIP := v);
    }

    method SetBaud(v: string)
      modifies this`rtu
      ensures rtu == old(rtu).(baud := v)
    {
      rtu := rtu.(baud := v);
    }

    method SetDataBits(v: string)
      modifies this`rtu
      ensures rtu == old(rtu).(dataBits := v)
    {
      rtu := rtu.(dataBits := v);
    }

    method SetStopBits(v: string)
      modifies this`rtu
      ensures rtu == old(rtu).(stopBits := v)
    {
      rtu := rtu.(stopBits := v);
    }

    method SetParity(v: string)
      modifies this`rtu
      ensures rtu == old(rtu).(parity := v)
    {
      rtu := rtu.(parity := v);
    }

    method SetRTS(v: string)
      modifies this`rtu
      ensures rtu == old(rtu).(rts := v)
    {
      rtu := rtu.(rts := v);
    }

    method SetMaxNoOfLines(v: string)
      modifies this`vars
      ensures vars == old(vars).(maxNoOfLines := v)
    {
      vars := vars.(maxNoOfLines := v);
    }

    method SetBaseAddr(v: string)
      modifies this`vars
      ensures vars == old(vars).(baseAddr := v)
    {
      vars := vars.(baseAddr := v);
    }

    method SetTimeOut(v: string)
      modifies this`vars
      ensures vars == old(vars).(timeOut := v)
    {
      vars := vars.(timeOut := v);
    }

    method SetModbusMode(v: Text.Int32)
      modifies this`session
      ensures session == old(session).(modbusMode := v)
    {
      session := session.(modbusMode := v);
    }

    method SetSlaveID(v: Text.Int32)
      modifies this`session
      ensures session == old(session).(slaveID := v)
    {
      session := session.(slaveID := v);
    }

    method SetScanRate(v: Text.Int32)
      modifies this`session
      ensures session == old(session).(scanRate := v)
    {
      session := session.(scanRate := v);
    }

    method SetFunctionCode(v: Text.Int32)
      modifies this`session
      ensures session == old(session).(functionCode := v)
    {
      session := session.(functionCode := v);
    }

    method SetStartAddr(v: Text.Int32)
      modifies this`session
      ensures session == old(session).(startAddr := v)
    {
      session := session.(startAddr := v);
    }

    method SetNoOfRegs(v: Text.Int32)
      modifies this`session
      ensures session == old(session).(noOfRegs := v)
    {
      session := session.(noOfRegs := v);
    }

    method SetBase(v: Text.Int32)
      modifies this`session
      ensures session == old(session).(base := v)
    {
      session := session.(base := v);
    }
  }

  /** An empty store loads the documented defaults. */
  lemma LoadDefaults(windows: bool)
    ensures Loaded(map[], windows) ==
      Record(TcpGroup("502", "127.000.000.001"),
             RtuGroup(if windows then "COM" else "/dev/ttyS", "1", if windows then "COM1" else "/dev/ttyS0",
                      "9600", "8", "1", "None", if windows then "Disable" else "None"),
             VarGroup("60", "0", "0", 3),
             SessionGroup(0, 1, 1000, 0, 0, 0, 1))
  {
    assert Text.Decimal(0) == "0";
  }

  /**
   * Saving and loading again restores every field, except that a maximum
   * number of log lines whose integer value is 0 comes back as "60" and that
   * on Windows the serial device comes back as "COM".
   */
  lemma SaveLoadRoundTrip(s: map<Key, Variant>, r: Record, windows: bool)
    ensures Loaded(Saved(s, r), windows) ==
      r.(rtu := r.rtu.(serialDev := if windows then "COM" else r.rtu.serialDev),
         vars := r.vars.(maxNoOfLines := if Text.VariantToInt(r.vars.maxNoOfLines) == 0 then "60" else r.vars.maxNoOfLines))
  {
    TcpRoundTrip(s, r);
    RtuRoundTrip(s, r, windows);
    VarRoundTrip(s, r);
    SessionRoundTrip(s, r);
  }

  lemma TcpRoundTrip(s: map<Key, Variant>, r: Record)
    ensures LoadedTcp(Saved(s, r)) == r.tcp
  {
  }

  lemma RtuRoundTrip(s: map<Key, Variant>, r: Record, windows: bool)
    ensures LoadedRtu(Saved(s, r), windows) == r.rtu.(serialDev := if windows then "COM" else r.rtu.serialDev)
  {
  }

  lemma VarRoundTrip(s: map<Key, Variant>, r: Record)
    ensures LoadedVar(Saved(s, r)) ==
      r.vars.(maxNoOfLines := if Text.VariantToInt(r.vars.maxNoOfLines) == 0 then "60" else r.vars.maxNoOfLines)
  {
  }

  lemma SessionRoundTrip(s: map<Key, Variant>, r: Record)
    ensures LoadedSession(Saved(s, r)) == r.session
  {
  }

  /** A save writes all 21 keys, so saving twice leaves what the second save alone would. */
  lemma SaveOverwrites(s: map<Key, Variant>, r1: Record, r2: Record)
    ensures Saved(Saved(s, r1), r2) == Saved(s, r2)
  {
    var a, b := Saved(Saved(s, r1), r2), Saved(s, r2);
    forall k: Key ensures k in a && k in b && a[k] == b[k] {
      SavedAt(Saved(s, r1), r2, k);
      SavedAt(s, r2, k);
    }
  }

  /** The value a save leaves under key k. */
  function SavedValue(r: Record, k: Key): Variant
  {
    match k
    case TcpPortKey => Str(r.tcp.tcpPort)
    case SlaveIPKey => Str(r.tcp.slaveIP)
    case SerialDevKey => Str(r.rtu.serialDev)
    case SerialPortKey => Str(r.rtu.serialPort)
    case SerialPortNameKey => Str(r.rtu.serialPortName)
    case BaudKey => Str(r.rtu.baud)
    case DataBitsKey => Str(r.rtu.dataBits)
    case StopBitsKey => Str(r.rtu.stopBits)
    case ParityKey => Str(r.rtu.parity)
    case RtsKey => Str(r.rtu.rts)
    case MaxNoOfLinesKey => Str(r.vars.maxNoOfLines)
    case BaseAddrKey => Str(r.vars.baseAddr)
    case TimeOutKey => Str(r.vars.timeOut)
    case LoggingLevelKey => Int(r.vars.loggingLevel)
    case ModBusModeKey => Int(r.session.modbusMode)
    case SlaveIDKey => Int(r.session.slaveID)
    case ScanRateKey => Int(r.session.scanRate)
    case FunctionCodeKey => Int(r.session.functionCode)
    case StartAddrKey => Int(r.session.startAddr)
    case NoOfRegsKey => Int(r.session.noOfRegs)
    case BaseKey => Int(r.session.base)
  }

  /** After a save every key is present and holds its field's value, whatever the store held before. */
  lemma SavedAt(s: map<Key, Variant>, r: Record, k: Key)
    ensures k in Saved(s, r) && Saved(s, r)[k] == SavedValue(r, k)
  {
    if k == TcpPortKey || k == SlaveIPKey || k == SerialDevKey || k == SerialPortKey {
      SavedAt0(s, r, k);
    } else if k == SerialPortNameKey || k == BaudKey || k == DataBitsKey || k == StopBitsKey {
      SavedAt1(s, r, k);
    } else if k == ParityKey || k == RtsKey || k == MaxNoOfLinesKey || k == BaseAddrKey {
      SavedAt2(s, r, k);
    } else if k == TimeOutKey || k == LoggingLevelKey || k == ModBusModeKey || k == SlaveIDKey {
      SavedAt3(s, r, k);
    } else {
      SavedAt4(s, r, k);
    }
  }

  // SavedAt, a few keys at a time.

  lemma SavedAt0(s: map<Key, Variant>, r: Record, k: Key)
    requires k == TcpPortKey || k == SlaveIPKey || k == SerialDevKey || k == SerialPortKey
    ensures k in Saved(s, r) && Saved(s, r)[k] == SavedValue(r, k)
  {
  }

  lemma SavedAt1(s: map<Key, Variant>, r: Record, k: Key)
    requires k == SerialPortNameKey || k == BaudKey || k == DataBitsKey || k == StopBitsKey
    ensures k in Saved(s, r) && Saved(s, r)[k] == SavedValue(r, k)
  {
  }

  lemma SavedAt2(s: map<Key, Variant>, r: Record, k: Key)
    requires k == ParityKey || k == RtsKey || k == MaxNoOfLinesKey || k == BaseAddrKey
    ensures k in Saved(s, r) && Saved(s, r)[k] == SavedValue(r, k)
  {
  }

  lemma SavedAt3(s: map<Key, Variant>, r: Record, k: Key)
    requires k == TimeOutKey || k == LoggingLevelKey || k == ModBusModeKey || k == SlaveIDKey
    ensures k in Saved(s, r) && Saved(s, r)[k] == SavedValue(r, k)
  {
  }

  lemma SavedAt4(s: map<Key, Variant>, r: Record, k: Key)
    requires !(k == TcpPortKey || k == SlaveIPKey || k == SerialDevKey || k == SerialPortKey || k == SerialPortNameKey || k == BaudKey || k == DataBitsKey || k == StopBitsKey || k == ParityKey || k == RtsKey || k == MaxNoOfLinesKey || k == BaseAddrKey || k == TimeOutKey || k == LoggingLevelKey || k == ModBusModeKey || k == SlaveIDKey)
    ensures k in Saved(s, r) && Saved(s, r)[k] == SavedValue(r, k)
  {
  }

  /** Whatever the store holds, the loaded maximum number of log lines is never 0. */
  lemma LoadedMaxLinesNonZero(s: map<Key, Variant>, windows: bool)
    ensures Text.VariantToInt(Loaded(s, windows).vars.maxNoOfLines) != 0
  {
    if MaxNoOfLinesKey !in s || AsInt(s[MaxNoOfLinesKey]) == 0 {
      assert Text.Decimal(60) == "60";
      Text.DecimalConversions(60);
    } else if s[MaxNoOfLinesKey].Int? {
      Text.DecimalConversions(s[MaxNoOfLinesKey].number);
    }
  }

  /**
   * A log size stored as the string of 2^32 + 1 is kept as it is, since its
   * variant value is 1; the window then reads it with toInt, which gives 0.
   */
  lemma WideMaxLinesKept(windows: bool)
    ensures var d := Text.Decimal(0x1_0000_0001);
      AsInt(Str(d)) == 1 &&
      Loaded(map[MaxNoOfLinesKey := Str(d)], windows).vars.maxNoOfLines == d && Text.ToInt(d) == 0
  {
    Text.DecimalConversions(0x1_0000_0001);
  }

  /**
   * Loading what was saved from a loaded record gives that record back:
   * once loaded, the settings survive any number of save/load cycles.
   */
  lemma LoadSaveLoadStable(s: map<Key, Variant>, t: map<Key, Variant>, windows: bool)
    ensures Loaded(Saved(s, Loaded(t, windows)), windows) == Loaded(t, windows)
  {
    LoadedMaxLinesNonZero(t, windows);
    SaveLoadRoundTrip(s, Loaded(t, windows), windows);
  }

  /** A missing serial port key loads port "1" with the device name `setSerialPort("1", dev)` would derive. */
  lemma MissingPortDerivesName(s: map<Key, Variant>, windows: bool)
    requires SerialPortKey !in s
    ensures var g := Loaded(s, windows).rtu;
      g.serialPort == "1" && g.serialPortName == SerialPortName("1", g.serialDev, windows)
  {
    assert Text.Decimal(1) == "1";
    Text.ToIntDecimal(1);
  }

  /**
   * Outside Windows the device name is the device prefix followed by a
   * decimal number that reads back as the port number minus one.
   */
  lemma SerialPortNameReadsBack(port: string, dev: string)
    ensures var name := SerialPortName(port, dev, false);
      |name| > |dev| && name[..|dev|] == dev && Text.ParseInt(name[|dev|..]) == Text.Some(Text.ToInt(port) - 1)
  {
    var name := SerialPortName(port, dev, false);
    assert name[|dev|..] == Text.Decimal(Text.ToInt(port) - 1);
    Text.DecimalRoundTrip(Text.ToInt(port) - 1);
  }

  /** On Windows the device name ends with the port as given, after "COM", and after "\\.\COM" above port 9. */
  lemma SerialPortNameWindows(port: string, dev: string)
    ensures var name := SerialPortName(port, dev, true);
      var prefix := if Text.ToInt(port) > 9 then "\\\\.\\COM" else "COM";
      |name| == |prefix| + |port| && name[..|prefix|] == prefix && name[|prefix|..] == port
  {
  }
}
