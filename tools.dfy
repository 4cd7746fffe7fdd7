/**
 * The Tools window: the address conversion used before pinging the slave
 * or probing its port, the command list of the two modes, and the Modbus
 * diagnostics command (function 0x11, Report Slave ID) with the text it
 * appends to the output pane.
 */
module Tools {
  import Text
  import EUtils
  import Libmodbus
  import Adapter
  import Settings

  // ---------------------------------------------------------------------------
  // ipConv

  /** ipConv works on addresses of at least four parts, none of them empty. */
  predicate Convertible(ip: string)
  {
    var parts := Text.Split(ip, '.');
    |parts| >= 4 && forall i :: 0 <= i < |parts| ==> parts[i] != ""
  }

  /** One part with a single leading '0' removed, if it has one. */
  function StripZero(part: string): (r: string)
    requires part != ""
    ensures part == (if part[0] == '0' then "0" else "") + r
  {
    if part[0] == '0' then part[1..] else part
  }

  /** The address ipConv builds: the first four parts, each stripped, joined by dots. */
  function Converted(ip: string): string
    requires Convertible(ip)
  {
    var parts := Text.Split(ip, '.');
    Text.Join([StripZero(parts[0]), StripZero(parts[1]), StripZero(parts[2]), StripZero(parts[3])], '.')
  }

  /**
   * ipConv: splits the address at the dots, strips one leading '0' from
   * every part, and joins the first four converted parts again.
   */
  method IpConv(ip: string) returns (r: string)
    requires Convertible(ip)
    ensures r == Converted(ip)
  {
    var parts := Text.Split(ip, '.');
    var conv := StripParts(parts);
    r := conv[0] + "." + conv[1] + "." + conv[2] + "." + conv[3];
    JoinFour(conv[0], conv[1], conv[2], conv[3]);
  }

  /** The loop of ipConv: every part, stripped of one leading '0'. */
  method StripParts(parts: seq<string>) returns (conv: seq<string>)
    requires forall i :: 0 <= i < |parts| ==> parts[i] != ""
    ensures |conv| == |parts| && forall j :: 0 <= j < |parts| ==> conv[j] == StripZero(parts[j])
  {
    conv := [];
    var i := 0;
    while i < |parts|
      invariant 0 <= i <= |parts| && |conv| == i
      invariant forall j :: 0 <= j < i ==> conv[j] == StripZero(parts[j])
    {
      var part := parts[i];
      var stripped;
      if part[0] == '0' {
        stripped := part[1..];
      } else {
        stripped := part;
      }
      conv := conv + [stripped];
      i := i + 1;
    }
  }

  lemma JoinFour(a: string, b: string, c: string, d: string)
    ensures Text.Join([a, b, c, d], '.') == a + "." + b + "." + c + "." + d
  {
    var parts := [a, b, c, d];
    assert parts[1..] == [b, c, d];
    assert [b, c, d][1..] == [c, d];
    assert [c, d][1..] == [d];
    assert Text.Join([c, d], '.') == c + "." + d;
    assert Text.Join([b, c, d], '.') == b + "." + (c + "." + d);
  }

  /**
   * The converted address has exactly four dot-separated parts: the first
   * four parts of the input, each stripped of one leading '0'. Any parts
   * after the fourth are dropped.
   */
  lemma ConvertedParts(ip: string)
    requires Convertible(ip)
    ensures var parts := Text.Split(ip, '.');
      Text.Split(Converted(ip), '.') ==
      [StripZero(parts[0]), StripZero(parts[1]), StripZero(parts[2]), StripZero(parts[3])]
  {
    var parts := Text.Split(ip, '.');
    var conv := [StripZero(parts[0]), StripZero(parts[1]), StripZero(parts[2]), StripZero(parts[3])];
    forall i | 0 <= i < 4
      ensures '.' !in conv[i]
    {
      assert '.' !in parts[i];
      assert parts[i] == (if parts[i][0] == '0' then "0" else "") + conv[i];
    }
    Text.SplitJoin(conv, '.');
  }

  /** An address of four parts none of which starts with '0' converts to itself. */
  lemma ConvertedCanonical(ip: string)
    requires Convertible(ip)
    requires var parts := Text.Split(ip, '.'); |parts| == 4 && forall i :: 0 <= i < 4 ==> parts[i][0] != '0'
    ensures Converted(ip) == ip
  {
    var parts := Text.Split(ip, '.');
    assert [StripZero(parts[0]), StripZero(parts[1]), StripZero(parts[2]), StripZero(parts[3])] == parts;
  }

  /** Only one zero goes: "127.000.000.001" becomes "127.00.00.01". */
  lemma ConvertedKeepsFurtherZeros()
    ensures Convertible("127.000.000.001") && Converted("127.000.000.001") == "127.00.00.01"
  {
    SplitExample();
    ExampleParts();
    JoinFour("127", "00", "00", "01");
    ExampleText();
  }

  lemma SplitExample()
    ensures Text.Split("127.000.000.001", '.') == ["127", "000", "000", "001"]
  {
    JoinFour("127", "000", "000", "001");
    ExampleText();
    Text.SplitJoin(["127", "000", "000", "001"], '.');
  }

  lemma ExampleParts()
    ensures StripZero("127") == "127" && StripZero("000") == "00" && StripZero("001") == "01"
    ensures forall i :: 0 <= i < 4 ==> ["127", "000", "000", "001"][i] != ""
  {
  }

  lemma ExampleText()
    ensures "127" + "." + "000" + "." + "000" + "." + "001" == "127.000.000.001"
    ensures "127" + "." + "00" + "." + "00" + "." + "01" == "127.00.00.01"
  {
  }

  // ---------------------------------------------------------------------------
  // The commands

  const ReportSlaveIdCommand: string := "Report Slave ID"
  const PingCommand: string := "Ping"
  const PortStatusCommand: string := "Port Status"

  // ---------------------------------------------------------------------------
  // The Report Slave ID reply

  /** Where the first NUL byte of `b` is, or |b| when there is none. */
  function NulIndex(b: seq<Libmodbus.Byte>): (k: nat)
    ensures k <= |b| && (k < |b| ==> b[k] == 0)
    ensures forall j :: 0 <= j < k ==> b[j] != 0
  {
    if b == [] then 0 else if b[0] == 0 then 0 else 1 + NulIndex(b[1..])
  }

  /** Bytes as characters, one character per byte. */
  function Chars(b: seq<Libmodbus.Byte>): (s: string)
    ensures |s| == |b| && forall i :: 0 <= i < |b| ==> s[i] == (b[i] as int) as char
  {
    seq(|b|, i requires 0 <= i < |b| => (b[i] as int) as char)
  }

  /** The C string at the start of `b`: the characters before its first NUL. */
  function CString(b: seq<Libmodbus.Byte>): string
  {
    Chars(b[..NulIndex(b)])
  }

  /**
   * QString::right: the last `n` characters, or the whole string when `n`
   * is negative or not below the length.
   */
  function Right(s: string, n: int): (r: string)
    ensures 0 <= n < |s| ==> |r| == n && s == s[..|s| - n] + r
    ensures !(0 <= n < |s|) ==> r == s
  {
    if n < 0 || n >= |s| then s else s[|s| - n..]
  }

  /**
   * The ID text as modbusDiagnostics computes it: the reply read as a C
   * string from its first byte, less its first two characters.
   */
  function IdTextAsWritten(reply: seq<Libmodbus.Byte>): string
  {
    var id := CString(reply);
    Right(id, |id| - 2)
  }

  /**
   * The ID text the command means to show: the device's additional data,
   * the C string that follows the slave id byte and the run status byte.
   */
  function IdText(reply: seq<Libmodbus.Byte>): string
    requires |reply| >= 2
  {
    CString(reply[2..])
  }

  /**
   * A reply made of the two header bytes, NUL-free data and a NUL gives
   * that data back, character for character.
   */
  lemma IdTextReadsBack(id: Libmodbus.Byte, status: Libmodbus.Byte, data: seq<Libmodbus.Byte>, rest: seq<Libmodbus.Byte>)
    requires forall i :: 0 <= i < |data| ==> data[i] != 0
    ensures IdText([id, status] + data + [0] + rest) == Chars(data)
  {
    var tail := ([id, status] + data + [0] + rest)[2..];
    assert tail == data + [0] + rest;
    NulIndexAt(data, rest);
    assert tail[..|data|] == data;
  }

  lemma {:induction false} NulIndexAt(data: seq<Libmodbus.Byte>, rest: seq<Libmodbus.Byte>)
    requires forall i :: 0 <= i < |data| ==> data[i] != 0
    ensures NulIndex(data + [0] + rest) == |data|
    decreases |data|
  {
    if data != [] {
      assert (data + [0] + rest)[1..] == data[1..] + [0] + rest;
      NulIndexAt(data[1..], rest);
    }
  }

  /** When neither header byte is NUL, the computed ID text is the intended one. */
  lemma IdTextAgreesWithNonZeroHeader(reply: seq<Libmodbus.Byte>)
    requires |reply| >= 2 && reply[0] != 0 && reply[1] != 0
    ensures IdTextAsWritten(reply) == IdText(reply)
  {
    var k := NulIndex(reply);
    assert NulIndex(reply[1..]) == k - 1;
    assert NulIndex(reply[2..]) == k - 2 by {
      assert reply[1..][1..] == reply[2..];
    }
    var id := CString(reply);
    assert reply[2..][..k - 2] == reply[..k][2..];
    if k > 2 {
      assert Right(id, |id| - 2) == id[2..];
    }
  }

  /**
   * With the run status OFF (a NUL second byte), the C string stops after
   * the slave id byte, QString::right(-1) returns it whole, and the ID line
   * shows the slave id byte instead of the additional data: for the reply
   * 0x41 0x00 0x42 0x43 0x00 it prints "A" where "BC" is meant.
   */
  lemma IdTextLostWhenStatusOff()
    ensures IdTextAsWritten([0x41, 0x00, 0x42, 0x43, 0x00]) == "A"
    ensures IdText([0x41, 0x00, 0x42, 0x43, 0x00]) == "BC"
  {
    var reply: seq<Libmodbus.Byte> := [0x41, 0x00, 0x42, 0x43, 0x00];
    assert NulIndex(reply) == 1 by {
      assert reply[1..][0] == 0;
    }
    assert reply[..1] == [0x41];
    NulIndexAt([0x42, 0x43], []);
    assert reply[2..] == [0x42, 0x43] + [0] + [];
    assert reply[2..][..2] == [0x42, 0x43];
  }

  /** The run status line: ON exactly when the second reply byte is not NUL. */
  function RunStatus(reply: seq<Libmodbus.Byte>): string
    requires |reply| >= 2
  {
    if reply[1] != 0 then "ON" else "OFF"
  }

  const FailedText: string := "Read diagnostics data failed.\n"
  const NotConnectedText: string := "Not Connected.\n"

  /**
   * The text modbusDiagnostics appends: for a reply longer than one
   * byte the run status and the ID, otherwise the failure message, which
   * names an error for a negative result and an unknown error for any
   * other.
   */
  function DiagnosticsText(reply: seq<Libmodbus.Byte>, ret: int, message: string): string
    requires |reply| >= 2
  {
    if ret > 1 then "Run Status : " + RunStatus(reply) + "\n" + "ID : " + IdText(reply) + "\n"
    else if ret < 0 then FailedText + "Error : " + message
    else FailedText + "Unknown Error : " + message
  }

  /** Success and failure texts are told apart by their first line. */
  lemma DiagnosticsTextDistinguishes(reply: seq<Libmodbus.Byte>, ret: int, message: string)
    requires |reply| >= 2
    ensures var t := DiagnosticsText(reply, ret, message);
      (ret > 1 <==> |t| >= 13 && t[..13] == "Run Status : ")
      && (ret <= 1 ==> |t| >= |FailedText| && t[..|FailedText|] == FailedText)
  {
    var t := DiagnosticsText(reply, ret, message);
    if ret <= 1 {
      assert t[..|FailedText|] == FailedText;
      assert t[..13] != "Run Status : " by {
        assert t[0] == 'R' && t[1] == 'e';
      }
    }
  }

  // ---------------------------------------------------------------------------
  // The window

  class ToolsWindow {
    const adapter: Adapter.ModbusAdapter
    const settings: Settings.ModbusCommSettings
    /** The commands of the command box. */
    var commands: seq<string>
    /** The text of the output pane. */
    var output: string

    /** The window over the adapter and the settings: Report Slave ID only, empty output. */
    constructor(adapter: Adapter.ModbusAdapter, settings: Settings.ModbusCommSettings)
      ensures this.adapter == adapter && this.settings == settings
      ensures commands == [ReportSlaveIdCommand] && output == ""
    {
      this.adapter := adapter;
      this.settings := settings;
      commands := [ReportSlaveIdCommand];
      output := "";
    }

    /**
     * changedModbusMode: the RTU/TCP entry (index 0) offers Report Slave
     * ID only; the TCP entry, like any other, adds Ping and Port Status.
     */
    method ChangedModbusMode(currIndex: int)
      modifies this`commands
      ensures commands == if currIndex == 0 then [ReportSlaveIdCommand]
                          else [ReportSlaveIdCommand, PingCommand, PortStatusCommand]
    {
      commands := [];
      if currIndex == 0 {
        commands := commands + [ReportSlaveIdCommand];
      } else {
        commands := commands + [ReportSlaveIdCommand];
        commands := commands + [PingCommand];
        commands := commands + [PortStatusCommand];
      }
    }

    /**
     * modbusDiagnostics: the adapter's function code becomes 0x11; on the
     * live context the library sets the slave id of the settings and
     * requests the slave id report into a zeroed 1024-byte buffer, at most
     * 253 bytes of it. A result above 1 appends the run status and the ID,
     * any other appends the failure text for the error number `err` the
     * report left, then flushes the context. The report's frames `traffic`
     * reach the adapter's raw log through the traffic hooks, since the
     * adapter is the one the hooks forward to.
     */
    method ModbusDiagnostics() returns (ghost reply: seq<Libmodbus.Byte>, ghost ret: int, ghost err: int,
                                        ghost traffic: seq<Libmodbus.Frame>)
      requires adapter.Valid() && adapter.handle.Live?
      modifies adapter`functionCode, adapter`transactionIsPending, adapter.rawModel, adapter.lib`calls, adapter.lib`errno,
        this`output
      ensures adapter.Valid() && adapter.functionCode == 0x11
      ensures adapter.rawModel.lines == old(adapter.rawModel.lines) + Adapter.MonitorLines(adapter.mode, traffic)
      ensures adapter.transactionIsPending == Adapter.PendingAfter(old(adapter.transactionIsPending), traffic)
      ensures |reply| == 1024 && forall i :: Libmodbus.MaxPduLength <= i < 1024 ==> reply[i] == 0
      ensures var c := adapter.handle.ctx;
        adapter.lib.calls == old(adapter.lib.calls)
          + [Libmodbus.Call.SetSlave(c, settings.session.slaveID), Libmodbus.Call.ReportSlaveId(c, Libmodbus.MaxPduLength)]
          + (if ret > 1 then [] else [Libmodbus.Call.Flush(c)])
      ensures output == old(output) + DiagnosticsText(reply, ret, EUtils.LibmodbusStrerror(err, err, adapter.lib.strerror))
    {
      adapter.SetFunctionCode(0x11);
      var dest := new Libmodbus.Byte[1024](_ => 0);
      var c := adapter.handle.ctx;
      var rc := adapter.lib.SetSlave(c, settings.session.slaveID);
      var r, frames := adapter.lib.ReportSlaveId(c, Libmodbus.MaxPduLength, dest);
      var e := adapter.lib.errno;
      ret, reply, err, traffic := r, dest[..], e, frames;
      adapter.Monitor(frames);
      ShowReply(c, dest[..], r, e);
    }

    /**
     * The second half of modbusDiagnostics: a result above 1 appends the run
     * status and the ID; any other appends the failure text for the error
     * number `err` and flushes the context `c`.
     */
    method ShowReply(c: nat, reply: seq<Libmodbus.Byte>, ret: int, err: int)
      requires c in adapter.lib.live && |reply| >= 2
      modifies adapter.lib`calls, adapter.lib`errno, this`output
      ensures adapter.lib.calls == old(adapter.lib.calls) + (if ret > 1 then [] else [Libmodbus.Call.Flush(c)])
      ensures output == old(output) + DiagnosticsText(reply, ret, EUtils.LibmodbusStrerror(err, err, adapter.lib.strerror))
    {
      if ret > 1 {
        ShowStatus(reply);
      } else {
        ShowFailure(c, ret, err);
      }
    }

    /** The success text: the run status line and the ID line. */
    method ShowStatus(reply: seq<Libmodbus.Byte>)
      requires |reply| >= 2
      modifies this`output
      ensures output == old(output) + ("Run Status : " + RunStatus(reply) + "\n" + "ID : " + IdText(reply) + "\n")
    {
      var line := if reply[1] != 0 then "ON" else "OFF";
      output := output + ("Run Status : " + line + "\n");
      var id := CString(reply[2..]);
      output := output + ("ID : " + id + "\n");
    }

    /** The failure text for a result `ret` and error number `err`, then a flush of `c`. */
    method ShowFailure(c: nat, ret: int, err: int)
      requires c in adapter.lib.live && ret <= 1
      modifies adapter.lib`calls, adapter.lib`errno, this`output
      ensures adapter.lib.calls == old(adapter.lib.calls) + [Libmodbus.Call.Flush(c)]
      ensures output == old(output) + DiagnosticsText([0, 0], ret, EUtils.LibmodbusStrerror(err, err, adapter.lib.strerror))
    {
      var message := EUtils.LibmodbusStrerror(err, err, adapter.lib.strerror);
      if ret < 0 {
        output := output + (FailedText + "Error : " + message);
      } else {
        output := output + (FailedText + "Unknown Error : " + message);
      }
      adapter.lib.Flush(c);
    }

    /**
     * diagnosticsProc: runs the diagnostics while the adapter holds a
     * context, and otherwise says so in the output.
     */
    method DiagnosticsProc() returns (ghost reply: seq<Libmodbus.Byte>, ghost ret: int, ghost err: int,
                                      ghost traffic: seq<Libmodbus.Frame>)
      requires adapter.Valid() && !adapter.handle.Dangling?
      modifies adapter`functionCode, adapter`transactionIsPending, adapter.rawModel, adapter.lib`calls, adapter.lib`errno,
        this`output
      ensures adapter.Valid()
      ensures adapter.handle.Null? ==> output == old(output) + NotConnectedText && adapter.lib.calls == old(adapter.lib.calls)
      ensures adapter.rawModel.lines == old(adapter.rawModel.lines) + Adapter.MonitorLines(adapter.mode, traffic)
      ensures adapter.transactionIsPending == Adapter.PendingAfter(old(adapter.transactionIsPending), traffic)
      ensures adapter.handle.Live? ==>
        && adapter.functionCode == 0x11 && |reply| >= 2
        && output == old(output) + DiagnosticsText(reply, ret, EUtils.LibmodbusStrerror(err, err, adapter.lib.strerror))
    {
      reply, ret, err, traffic := [0, 0], 0, 0, [];
      if !adapter.handle.Null? {
        reply, ret, err, traffic := ModbusDiagnostics();
      } else {
        output := output + NotConnectedText;
      }
    }
  }
}
