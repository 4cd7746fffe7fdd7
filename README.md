# qModbusMaster core in Dafny

This project models the core of qModbusMaster, a Qt desktop Modbus master, and proves properties of that model.

- **Adapter** (`adapter.dfy`) models `ModbusAdapter`:
  - The libmodbus context pointer has three states: null, live, and freed but still held.
  - It connects over RTU or TCP and disconnects.
  - It runs one transaction at a time on the stored slave, function code, start address and count.
  - On success it copies a read into the register table; on failure it invalidates the table, counts the error, logs one line, reports on the information bar and flushes.
  - It reads back the device state when a write function is configured.
  - It normalises addresses (`stripIP`) and builds the bus-monitor hex lines.
  - The traffic hooks log every frame a read, a write or the Report Slave ID diagnostics exchanges, before the adapter's own line, and track whether a transaction is pending.
- **EUtils** (`eutils.dfy`) models the register-cell formatter `formatValue` and the error-text table `libmodbus_strerror`. It also holds the standard function codes of the Modbus Application Protocol Specification V1.1b3:
  - 0x01–0x04: sections 6.1–6.4;
  - 0x05 and 0x06: sections 6.5 and 6.6;
  - 0x0F and 0x10: sections 6.11 and 6.12;
  - 0x11: section 6.13.
- **Settings** (`settings.dfy`) models `ModbusCommSettings`:
  - The 21 persistent settings sit in four section-valued fields.
  - `load` fills defaults for missing keys; `save` writes every key.
  - `setSerialPort` and the field setters are modelled too.
  - The QSettings store is a map from key to a string-or-int variant.
- **Window** (`mainwindow.dfy`) models the request rules of `MainWindow`:
  - the count box shaped per function code;
  - the empty-table rejection;
  - the base-address offset;
  - the scan-rate guard;
  - how connect, disconnect, the scan action and the counters are coupled.

  The widgets are one `Form` value. The Qt signal connections the rules rely on (src/mainwindow.cpp:56, 61, 62) become direct calls:
  - a changed count value runs `changedNoOfRegs`;
  - unchecking the scan action runs `modbusScanCycle(false)`;
  - unchecking the connect action runs `changedConnect(false)`.

  A QSpinBox is modelled with Qt's semantics: `setValue` bounds the value, and `setMaximum` drags the minimum down and bounds the value.
- **Tools** (`tools.dfy`) models the Tools window:
  - `ipConv`, which strips one leading `'0'` per part;
  - the command list per mode;
  - the Report Slave ID diagnostics (function 0x11): reply decoding, the success test and the failure text.
- **Libmodbus** (`libmodbus.dfy`) models the library as a class with a ghost call trace and a set of live contexts:
  - Every primitive other than a constructor needs a live context, so a use after free or a double free cannot verify.
  - Results are unconstrained, apart from the request-size limits libmodbus enforces.
  - A primitive that exchanges frames returns them, unconstrained, so that the traffic hooks can be run on them.
- **Models** (`models.dfy`) reduces the register table, the raw bus log and the information bar to the state the adapter changes.
- **Text** (`text.dfy`) holds what the model needs of QString:
  - digit strings and their parser;
  - `toUpper` on ASCII;
  - `split`, which keeps empty parts, and `join`;
  - `toInt`, which skips white space around the number and gives 0 for anything else than an optionally signed 32-bit decimal;
  - `toLongLong`, the same at 64 bits, and `QVariant::toInt` of a string as Qt 5 computes it: the 64-bit value cut to its low 32 bits, with no overflow check;
  - `number`/`setNum`.

### Behaviour worth knowing

- **Hex and binary widths.** The 16-bit flag gives four hex digits only for 0 .. 0xFFFF (`EUtils.Hex16RoundTrip`). A negative value prints the 16 hex digits of its unsigned 64-bit image, with or without the flag (`EUtils.HexNegative`). Binary behaves the same way:
  - without the flag a negative value prints 64 binary digits (`EUtils.BinNegative`);
  - signed 16-bit binary is 16 digits when the low 16 bits are below 0x8000 (`EUtils.Bin16SignedNonNegative`), and 64 digits otherwise (`EUtils.Bin16SignedNegative`).
- **Signed decimal.** Signed decimal is `(signed short)value`, the low 16 bits read as two's complement (`EUtils.DecimalSigned`). This is not `v - 65536` for values wider than 16 bits.
- **Multiple-write caps.** The code caps Write Multiple Coils at 2000 (src/mainwindow.cpp:280) and Write Multiple Registers at 125 (src/mainwindow.cpp:294). The Modbus Application Protocol Specification V1.1b3 allows 1968 coils (section 6.11) and 123 registers (section 6.12), and libmodbus refuses larger requests. The model keeps the code's caps. `Window.MultipleWriteCapAboveLibrary` shows that a count the window accepts is one the library refuses.
- **Scan-rate guard.** The guard `timeOut.toInt() * 1000 * 2` (src/mainwindow.cpp:598) is computed in 32-bit `int` arithmetic. Where a product leaves the int range, the model takes the usual two's-complement wrap-around. C++ leaves that signed overflow undefined, but the guard's verdict depends on the value, so the model follows the wrap rather than leaving the value open. The counters, by contrast, are kept unbounded: no verdict of the model depends on their wrapped value. The guard is then the 32-bit image of twice the timeout in milliseconds (`Window.MinScanIntervalWrapped`):
  - up to a timeout of 1073741 seconds it is exact (`Window.MinScanIntervalExact`);
  - from 1073742 to 2147483 seconds it is below zero, and every interval passes (`Window.MinScanIntervalWraps`);
  - from 2147484 to 3221225 seconds it is positive again, 704 ms at 2147484 seconds (`Window.MinScanIntervalPositiveAgain`).

## Model

| member | source | states |
|---|---|---|
| Text.DigitRoundTrip | src/eutils.cpp:21 | every digit character reads back as its digit |
| Text.Digits | src/eutils.cpp:21 | the minimal digit string of n in a base: all digits, value n, no leading zero unless n is 0 |
| Text.PadLeft | src/eutils.cpp:16-18 | the field width of QString::arg: the string right-aligned in the width, the rest filled with the fill character |
| Text.PadDigitsValue | src/eutils.cpp:33 | zero-padding a digit string to any width still parses to its value |
| Text.ToUpper | src/eutils.cpp:43 | QString::toUpper on ASCII: same length, every lower-case letter upper-cased, nothing else changed |
| Text.UpperParse | src/modbusadapter.cpp:390 | upper-casing a digit string does not change what it parses to |
| Text.DecimalRoundTrip | src/modbusadapter.cpp:502 | the decimal form of any integer parses back to it |
| Text.ToIntDecimal | src/modbusadapter.cpp:502-505 | QString::toInt reads back the decimal form of every 32-bit int |
| Text.DecimalNoSeparator | src/modbusadapter.cpp:505 | a decimal number never contains a dot, so it survives a later split at dots |
| Text.Decimal | src/modbusadapter.cpp:502 | QString::setNum / number in base 10: '-' and the minimal digits of the magnitude; its partners are DecimalRoundTrip and ToIntPadded |
| Text.ParseInt | src/modbusadapter.cpp:502 | an optional '+' or '-' followed by one or more decimal digits, with their value; none for anything else |
| Text.IsSpace | src/modbusadapter.cpp:502 | QChar::isSpace: blank, TAB to CR, NEL, no-break space and the Unicode space, line and paragraph separators |
| Text.TrimLeftOf | src/modbusadapter.cpp:502 | leading white space is exactly what TrimLeft removes, up to the first character that is not white space |
| Text.TrimRightOf | src/modbusadapter.cpp:502 | trailing white space is exactly what TrimRight removes |
| Text.Trimmed | src/modbusadapter.cpp:502 | trimming a text that neither starts nor ends with white space, surrounded by white space, gives the text |
| Text.DecimalUnspaced | src/modbusadapter.cpp:502 | a decimal number is non-empty and neither starts nor ends with white space |
| Text.ToInt | src/modbusadapter.cpp:502-505 | QString::toInt in base 10: surrounding white space skipped, then an optionally signed decimal that fits in an int, 0 otherwise |
| Text.ToLongLong | src/modbuscommsettings.cpp:318-322 | QString::toLongLong in base 10, the route the variant conversion of a stored string takes: white space skipped, an optionally signed decimal that fits in 64 bits, 0 otherwise |
| Text.VariantToInt | src/modbuscommsettings.cpp:318-322 | QVariant::toInt of a string: the 64-bit value wrapped to an int; DecimalConversions and ToIntNarrowsLongLong are its partners |
| Text.DecimalConversions | src/modbuscommsettings.cpp:318-322 | for every integer x: toLongLong reads back its decimal form when x fits in 64 bits, the variant conversion gives x wrapped to 32 bits, toInt gives x when it fits in 32 bits and 0 otherwise |
| Text.ToIntNarrowsLongLong | src/mainwindow.cpp:178 | toInt of a string is its 64-bit value when that fits in an int and 0 otherwise, so it agrees with the variant conversion exactly where the value fits |
| Text.ToIntPadded | src/modbusadapter.cpp:502-505 | toInt reads back the decimal form of every int whatever white space surrounds it, so "127.0.0. 1" strips to "127.0.0.1" |
| Text.Join | src/modbusadapter.cpp:505 | QStringList::join: the parts with one separator between neighbours; SplitJoin and Split make it the inverse of split |
| Text.Split | src/modbusadapter.cpp:500 | QString::split keeps empty parts: at least one part, no part contains the separator, and joining the parts gives the input back |
| Text.SplitJoin | src/modbusadapter.cpp:500-507 | splitting a join of separator-free parts gives the parts back |
| Text.JoinSnoc | src/modbusadapter.cpp:505 | joining one more part adds one separator and the part at the end |
| Text.IndexOf | src/modbusadapter.cpp:500 | the first occurrence of the separator split cuts at, or the length when none |
| EUtils.ArgLongLong | src/eutils.cpp:21 | QString::arg(qlonglong) in Qt 5: decimal with a sign in base 10; otherwise digits that parse to the value, or to 2^64 + value for a negative one |
| EUtils.ArgULongLong | src/eutils.cpp:18 | QString::arg(qulonglong): digits that parse to the value, at least as wide as the field |
| EUtils.Unsigned64 | src/eutils.cpp:33 | the unsigned 64-bit number with the same bits as a signed one |
| EUtils.ToShort | src/eutils.cpp:26 | `(signed short)value`: in -32768 .. 32767 and congruent to the value modulo 2^16 |
| EUtils.ShortOfShort | src/eutils.cpp:26 | a value that fits in a short converts to itself |
| EUtils.ToUShort | src/eutils.cpp:28 | `(unsigned short)value`: below 2^16 and congruent to the value modulo 2^16 |
| EUtils.FormatValue | src/eutils.cpp:7-45 | the cell text is always upper case |
| EUtils.Hex16RoundTrip | src/eutils.cpp:32-33 | 16-bit hex of 0 .. 0xFFFF is exactly four digits that parse back to the value |
| EUtils.HexMinimal | src/eutils.cpp:35 | hex without the 16-bit flag is the minimal hex digits of a non-negative value |
| EUtils.HexNegative | src/eutils.cpp:31-36 | a negative value in hex is 16 digits that parse to 2^64 + value |
| EUtils.Bin16Unsigned | src/eutils.cpp:17-18 | unsigned 16-bit binary is 16 digits that parse to the low 16 bits |
| EUtils.BinMinimal | src/eutils.cpp:21 | binary without the 16-bit flag is the minimal binary digits of a non-negative value |
| EUtils.BinNegative | src/eutils.cpp:20-21 | binary without the 16-bit flag of a negative value is 64 digits that parse to 2^64 + value |
| EUtils.Bin16SignedNonNegative | src/eutils.cpp:15-16 | signed 16-bit binary with the low 16 bits below 0x8000 is 16 digits that parse to those bits |
| EUtils.Bin16SignedNegative | src/eutils.cpp:15-16 | signed 16-bit binary of a negative short is 64 digits of its unsigned 64-bit image |
| EUtils.DecimalUnsigned | src/eutils.cpp:27-28 | unsigned decimal is the decimal of the low 16 bits whatever the 16-bit flag says, and reads back 0 .. 65535 |
| EUtils.DecimalSigned | src/eutils.cpp:25-26 | signed decimal is the low 16 bits as two's complement, and reads back every short |
| EUtils.DefaultDecimal | src/eutils.cpp:38-39 | any other format code gives the plain decimal, which reads back |
| EUtils.LibmodbusStrerror | src/eutils.cpp:48-77 | EINVAL, ETIMEDOUT, ECONNRESET, ECONNREFUSED and EPIPE have fixed texts; every other code gives modbus_strerror of errno |
| EUtils.StrerrorFixedInjective | src/eutils.cpp:50-70 | the five fixed texts are distinct, so a fixed text names its code |
| EUtils.StrerrorFallbackIgnoresCode | src/eutils.cpp:72-73 | outside the table the code passed in makes no difference, only errno does |
| Libmodbus.Library.constructor | src/modbusadapter.cpp:13 | no context is live and no call has been made |
| Libmodbus.Library.NewRtu | src/modbusadapter.cpp:48 | a new context not live before, or none; the call is recorded |
| Libmodbus.Library.NewTcp | src/modbusadapter.cpp:114 | a new context not live before, or none; the call is recorded |
| Libmodbus.Library.SetSlave | src/modbusadapter.cpp:64 | needs a live context; the call is recorded |
| Libmodbus.Library.Connect | src/modbusadapter.cpp:70 | needs a live context; the call is recorded |
| Libmodbus.Library.Close | src/modbusadapter.cpp:166 | needs a live context; the call is recorded |
| Libmodbus.Library.Free | src/modbusadapter.cpp:65 | needs a live context, which is no longer live afterwards |
| Libmodbus.Library.SetErrorRecoveryProtocol | src/modbusadapter.cpp:79 | needs a live context; the call is recorded |
| Libmodbus.Library.SetResponseTimeout | src/modbusadapter.cpp:81 | needs a live context; the call is recorded with seconds and microseconds |
| Libmodbus.Library.ReadBits | src/modbusadapter.cpp:234 | more than 2000 bits fail with -1 and send nothing; the call is recorded; it returns the frames it exchanged, for the traffic hooks |
| Libmodbus.Library.ReadInputBits | src/modbusadapter.cpp:238 | more than 2000 bits fail with -1 and send nothing; the call is recorded; it returns the frames it exchanged, for the traffic hooks |
| Libmodbus.Library.ReadRegisters | src/modbusadapter.cpp:242 | more than 125 registers fail with -1 and send nothing; the call is recorded; it returns the frames it exchanged, for the traffic hooks |
| Libmodbus.Library.ReadInputRegisters | src/modbusadapter.cpp:247 | more than 125 registers fail with -1 and send nothing; the call is recorded; it returns the frames it exchanged, for the traffic hooks |
| Libmodbus.Library.WriteBit | src/modbusadapter.cpp:307 | the call is recorded with the value sent; it returns the frames it exchanged, for the traffic hooks |
| Libmodbus.Library.WriteRegister | src/modbusadapter.cpp:312 | the call is recorded with the value sent; it returns the frames it exchanged, for the traffic hooks |
| Libmodbus.Library.WriteBits | src/modbusadapter.cpp:323 | more than 1968 coils fail with -1 and send nothing; the call is recorded with the values sent; it returns the frames it exchanged, for the traffic hooks |
| Libmodbus.Library.WriteRegisters | src/modbusadapter.cpp:334 | more than 123 registers fail with -1 and send nothing; the call is recorded with the values sent; it returns the frames it exchanged, for the traffic hooks |
| Libmodbus.Library.Flush | src/modbusadapter.cpp:288 | needs a live context; the call is recorded |
| Libmodbus.Library.ReportSlaveId | forms/tools.cpp:184 | writes nothing past the given maximum; the call is recorded; it returns the frames it exchanged, for the traffic hooks |
| Models.FreshCells | src/modbusadapter.cpp:439 | addItems makes n rows (none for negative n), each an invalid 0 |
| Models.Stored | src/modbusadapter.cpp:260-264 | row i takes a valid data[i] where the data reaches, every other row is kept |
| Models.Invalidated | src/modbusadapter.cpp:270 | every row becomes invalid and keeps its value |
| Models.RegistersModel.constructor | src/modbusadapter.cpp:16 | an empty, read-only table of 8-bit cells |
| Models.RawDataModel.constructor | src/modbusadapter.cpp:17 | an empty log |
| Models.InfoBar.constructor | src/mainwindow.cpp:744-747 | the bar starts hidden |
| Models.RegistersModel.AddItems | src/modbusadapter.cpp:439 | the table becomes FreshCells with the start address and the editable flag |
| Models.RegistersModel.SetValue | src/modbusadapter.cpp:263 | an existing row takes a valid value; no row is added |
| Models.RegistersModel.SetNoValidValues | src/modbusadapter.cpp:270 | the table becomes Invalidated |
| Models.RegistersModel.SetIs16Bit | src/mainwindow.cpp:246 | the cell width flag takes the given value |
| Models.RawDataModel.AddLine | src/modbusadapter.cpp:92 | exactly one line is appended to the log |
| Models.InfoBar.ShowError | src/mainwindow.cpp:739-742 | the bar shows the error message |
| Models.InfoBar.Hide | src/mainwindow.cpp:744-747 | the bar is hidden |
| Adapter.CoilValues | src/modbusadapter.cpp:318-322 | the coil buffer: n bytes, entry i the table's value i truncated to uint8_t |
| Adapter.RegisterValues | src/modbusadapter.cpp:329-333 | the register buffer: n words, entry i the table's value i truncated to uint16_t |
| Adapter.NormalisedParts | src/modbusadapter.cpp:502-505 | each part replaced by the decimal form of its integer value |
| Adapter.NormalisedSnoc | src/modbusadapter.cpp:505 | normalising one more part appends its decimal form |
| Adapter.StripStep | src/modbusadapter.cpp:504-506 | each loop step of stripIP appends a dot and the next normalised part |
| Adapter.StrippedIP | src/modbusadapter.cpp:493-513 | what stripIP returns: "" unless four dot-separated parts, else each part's integer value in decimal, joined by dots; StrippedIPBlank and StrippedIPIdempotent are its partners |
| Adapter.FailureLogText | src/modbusadapter.cpp:271-284 | the logged failure line: "Error : " and the error text for a negative result, the mismatch text and the error text otherwise |
| Adapter.FailureBannerText | src/modbusadapter.cpp:273-286 | the bar text of a failure: "Read data failed." or "Write data failed." above the logged line |
| Adapter.RtuLog | src/modbusadapter.cpp:88-92 | an RTU connect logs one line, ending "OK" or "Failed", only when the connection was attempted |
| Adapter.RtuBanner | src/modbusadapter.cpp:59-86 | the bar after an RTU connect: the context, slave id or connection error, hidden on success |
| Adapter.TcpLog | src/modbusadapter.cpp:149-153 | a TCP connect logs one line with the address and port, ending "OK" or "Failed", only when the connection was attempted |
| Adapter.TcpBanner | src/modbusadapter.cpp:105-147 | the bar after a TCP connect: blank address, context or connection error, hidden on success |
| Adapter.ReadOutcome | src/modbusadapter.cpp:219-291 | the state modbusReadData leaves: nothing without a context; else set slave and the read call, the hook lines of its frames, then the stored values or the failure path; ReadOutcomeTable states its properties |
| Adapter.WriteOutcome | src/modbusadapter.cpp:293-376 | the state modbusWriteData leaves: nothing without a context; else set slave and the write call with the table's values, the hook lines of its frames, then the success line or the failure path; WriteKeepsValues states its properties |
| Adapter.AddItemsOutcome | src/modbusadapter.cpp:437-452 | a fresh table of n invalid cells, read back with the matching read code, hook lines included, when connected and the code writes; AddItemsRows and AddItemsAllValid are its partners |
| Adapter.HexPair | src/modbusadapter.cpp:386 | `%.2x` of a byte is two characters |
| Adapter.HexPairValue | src/modbusadapter.cpp:386-390 | the upper-cased pair parses back to the byte in base 16 |
| Adapter.HexLine | src/modbusadapter.cpp:385-387 | the hex line of a frame is four characters per byte |
| Adapter.HexLineSnoc | src/modbusadapter.cpp:385-387 | one more byte appends its pair and two spaces |
| Adapter.MonitorLine | src/modbusadapter.cpp:378-415 | the line a traffic hook logs for one frame: its upper-cased hex, stamped as sent for a request and as received for a reply |
| Adapter.MonitorLines | src/modbusadapter.cpp:517-525 | one hook line per frame of a call, in order; MonitorLinesRecord is its partner |
| Adapter.PendingAfter | src/modbusadapter.cpp:394 | a request leaves a transaction pending and a reply clears it, so the last frame decides |
| Adapter.Monitored | src/modbusadapter.cpp:517-525 | the state after the hooks ran for a call's frames: the hook lines appended and the pending flag after them |
| Adapter.MonitorLinesRecord | src/modbusadapter.cpp:378-415 | hook line i is stamped as sent exactly when frame i is a request, and its text decodes to exactly frame i's bytes |
| Adapter.ModbusAdapter.Monitor | src/modbusadapter.cpp:517-525 | the hooks run frame by frame: the log gains MonitorLines of the frames and the pending flag is PendingAfter them |
| Adapter.ModbusAdapter.Hook | src/modbusadapter.cpp:517-525 | one frame forwarded to its hook on an array of its bytes: the log gains that frame's hook line and a transaction is pending exactly when the frame is a request |
| Adapter.MonitorLinesAt | src/modbusadapter.cpp:517-525 | hook line i of a call is the line of its frame i |
| Adapter.MonitorSnoc | src/modbusadapter.cpp:517-525 | one more frame appends exactly its own hook line and leaves the pending flag as that frame sets it |
| Adapter.HexLineRoundTrip | src/modbusadapter.cpp:385-390 | the upper-cased line the bus monitor logs decodes to exactly the frame's bytes |
| Adapter.StrippedIPIdempotent | src/modbusadapter.cpp:493-513 | stripIP of a non-empty stripped address gives it back |
| Adapter.StrippedIPBlank | src/modbusadapter.cpp:500-511 | stripIP gives "" exactly when the address does not have four dot-separated parts |
| Adapter.ReadBackFunction | src/modbusadapter.cpp:443-449 | the read-back is a read: Read Coils for the coil writes, Read Holding Registers otherwise |
| Adapter.ModbusAdapter.constructor | src/modbusadapter.cpp:11-32 | null context, disconnected, mode None, zero timeout and counters, empty table and log, zeroed buffers of 2000 bits and 125 registers |
| Adapter.ModbusAdapter.IsConnected | src/modbusadapter.cpp:178-183 | true exactly when a live context is held |
| Adapter.ModbusAdapter.DisConnect | src/modbusadapter.cpp:158-176 | afterwards null, disconnected, mode None; closes and frees only a live context, only forgets a freed one, and a second disconnect calls nothing |
| Adapter.ModbusAdapter.Establish | src/modbusadapter.cpp:70-92 | connected exactly on success; a refused connection frees the context (it dangles) and shows the error; success sets error recovery and the timeout and hides the bar; either way the mode is set and one line is logged |
| Adapter.ModbusAdapter.ConnectRTU | src/modbusadapter.cpp:40-94 | disconnects first, timeout stored; connected only when the context, the slave id and the connection all succeed; the early failures log nothing and set no mode; the library calls per outcome |
| Adapter.ModbusAdapter.OpenRtu | src/modbusadapter.cpp:48-93 | the RTU connect after its disconnect, with the outcomes of ConnectRTU |
| Adapter.ModbusAdapter.ConfigureRtu | src/modbusadapter.cpp:64-92 | a refused slave id frees the context and leaves the mode; otherwise the shared connect tail with mode RTU |
| Adapter.ModbusAdapter.ConnectTCP | src/modbusadapter.cpp:96-155 | disconnects first; a blank stripped address gives up before the timeout is stored; connected only on success; the early failures log nothing and set no mode; the library calls per outcome |
| Adapter.ModbusAdapter.OpenTcp | src/modbusadapter.cpp:105-154 | the TCP connect after its disconnect, with the outcomes of ConnectTCP |
| Adapter.ModbusAdapter.OpenTcpContext | src/modbusadapter.cpp:114-153 | with a non-blank address: no context, refused or connected, mode TCP unless no context |
| Adapter.ModbusAdapter.StripIP | src/modbusadapter.cpp:493-513 | the loop's result is StrippedIP: "" unless four parts, otherwise their decimal values joined by dots |
| Adapter.ModbusAdapter.Received | src/modbusadapter.cpp:260-262 | as many values as the count asks for, cut to the length of the buffer the code reads into |
| Adapter.ModbusAdapter.ReceivedValues | src/modbusadapter.cpp:260-262 | value i is entry i of the register buffer for the register reads and of the bit buffer otherwise |
| Adapter.Widened | src/modbusadapter.cpp:262 | the buffer entries as integers, one for one |
| Adapter.ModbusAdapter.StoreReceived | src/modbusadapter.cpp:260-264 | row i takes the i-th received value, valid, for every i below the count |
| Adapter.ModbusAdapter.ReportFailure | src/modbusadapter.cpp:268-289 | all cells invalid, one more error, one log line whose text depends on the sign of the result, the error on the bar, one flush |
| Adapter.ModbusAdapter.ReadPrimitive | src/modbusadapter.cpp:231-253 | the read primitive of the code into the bit or register buffer; -1 for any other code |
| Adapter.ModbusAdapter.ReadData | src/modbusadapter.cpp:219-291 | the new table, errors, log, bar, pending flag and library trace are ReadOutcome of the read's frames: nothing without a context, success exactly when the result equals the count |
| Adapter.ModbusAdapter.CoilBuffer | src/modbusadapter.cpp:318-322 | a fresh buffer holding CoilValues |
| Adapter.ModbusAdapter.RegisterBuffer | src/modbusadapter.cpp:329-333 | a fresh buffer holding RegisterValues |
| Adapter.ModbusAdapter.WritePrimitive | src/modbusadapter.cpp:304-341 | the write primitive of the code with the table's values; the count checked is 1 for single writes; -1 for any other code |
| Adapter.ModbusAdapter.WriteData | src/modbusadapter.cpp:293-376 | the new state is WriteOutcome of the write's frames: the table's values are sent and never changed; success logs "values written correctly." after the hook lines and hides the bar |
| Adapter.ModbusAdapter.Transaction | src/modbusadapter.cpp:185-217 | one more packet and one refresh on every call; a read code runs ReadOutcome, a write code WriteOutcome, and any other code changes nothing else |
| Adapter.ModbusAdapter.AddItems | src/modbusadapter.cpp:437-452 | always a fresh table; when connected with a write code, exactly one read-back of the matching read code and one refresh, nothing else otherwise |
| Adapter.ModbusAdapter.HexDump | src/modbusadapter.cpp:385-387 | the loop builds HexLine of the first dataLen bytes |
| Adapter.ModbusAdapter.BusMonitorRequestData | src/modbusadapter.cpp:378-396 | one log line, stamped as sent, holding the upper-cased hex line; a transaction is pending |
| Adapter.ModbusAdapter.BusMonitorResponseData | src/modbusadapter.cpp:397-415 | one log line, stamped as received, holding the upper-cased hex line; no transaction is pending |
| Adapter.ModbusAdapter.SetSlave | src/modbusadapter.cpp:417-420 | the stored slave is the given one |
| Adapter.ModbusAdapter.SetFunctionCode | src/modbusadapter.cpp:422-425 | the stored function code is the given one |
| Adapter.ModbusAdapter.SetStartAddr | src/modbusadapter.cpp:427-430 | the stored start address is the given one |
| Adapter.ModbusAdapter.SetNumOfRegs | src/modbusadapter.cpp:432-435 | the stored count is the given one |
| Adapter.ModbusAdapter.SetScanRate | src/modbusadapter.cpp:454-457 | the stored scan rate is the given one |
| Adapter.ModbusAdapter.SetTimeOut | src/modbusadapter.cpp:486-491 | the stored timeout is the given one |
| Adapter.ModbusAdapter.ResetCounters | src/modbusadapter.cpp:459-464 | both counters zero, one refresh |
| Adapter.ModbusAdapter.StartPollTimer | src/modbusadapter.cpp:476-479 | the timer runs with the stored scan rate |
| Adapter.ModbusAdapter.StopPollTimer | src/modbusadapter.cpp:481-484 | the timer is stopped |
| Adapter.AddItemsRows | src/modbusadapter.cpp:437-452 | addItems leaves exactly n rows (none for negative n), read back or not |
| Adapter.StoredSnoc | src/modbusadapter.cpp:260-264 | storing one more received value changes only that row |
| Adapter.ReadOutcomeTable | src/modbusadapter.cpp:258-289 | with a context: success exactly when the result equals the count; success stores the values, keeps the error count and hides the bar; failure keeps every value, clears every valid flag and counts one error; the row count never changes; the log gains the hook lines of the frames, then the failure line on failure only; the last frame sets the pending flag |
| Adapter.WriteKeepsValues | src/modbusadapter.cpp:304-374 | a write never changes a value; success keeps the table and the error count; failure counts one error; the log gains the hook lines of the frames and then exactly one line of the adapter's own, the success or the failure line |
| Adapter.NoContextNoEffect | src/modbusadapter.cpp:219-376 | without a live context neither a read nor a write changes anything, not even the library trace |
| Adapter.AddItemsAllValid | src/modbusadapter.cpp:437-452 | after a successful read-back of all n items the table has n rows, every one a valid received value |
| Settings.ModbusCommSettings.constructor | src/modbuscommsettings.cpp:4-8 | the settings are loaded from the object's own store |
| Settings.ModbusCommSettings.LoadSettings | src/modbuscommsettings.cpp:10-15 | the settings are Loaded from the object's own store |
| Settings.ModbusCommSettings.SaveSettings | src/modbuscommsettings.cpp:17-22 | the object's store is Saved with the current settings |
| Settings.ModbusCommSettings.Load | src/modbuscommsettings.cpp:249-374 | every setting from its key, or its default when the key is missing |
| Settings.ModbusCommSettings.LoadTcp | src/modbuscommsettings.cpp:252-260 | the TCP section as Loaded reads it |
| Settings.ModbusCommSettings.LoadRtu | src/modbuscommsettings.cpp:262-316 | the RTU section as Loaded reads it |
| Settings.ModbusCommSettings.LoadVar | src/modbuscommsettings.cpp:318-337 | the Var section as Loaded reads it |
| Settings.ModbusCommSettings.LoadSession | src/modbuscommsettings.cpp:339-372 | the Session section as Loaded reads it |
| Settings.ModbusCommSettings.Save | src/modbuscommsettings.cpp:376-401 | the store with each of the 21 settings written under its key |
| Settings.ModbusCommSettings.SetSerialPort | src/modbuscommsettings.cpp:59-75 | the device prefix, the port and the derived device name; nothing else changes |
| Settings.ModbusCommSettings.SetTCPPort | src/modbuscommsettings.cpp:29-32 | only the TCP port changes, to the given value |
| Settings.ModbusCommSettings.SetSlaveIP | src/modbuscommsettings.cpp:34-37 | only the slave address changes |
| Settings.ModbusCommSettings.SetBaud | src/modbuscommsettings.cpp:82-85 | only the baud rate changes |
| Settings.ModbusCommSettings.SetDataBits | src/modbuscommsettings.cpp:92-95 | only the data bits change |
| Settings.ModbusCommSettings.SetStopBits | src/modbuscommsettings.cpp:102-105 | only the stop bits change |
| Settings.ModbusCommSettings.SetParity | src/modbuscommsettings.cpp:112-115 | only the parity changes |
| Settings.ModbusCommSettings.SetRTS | src/modbuscommsettings.cpp:122-125 | only the RTS mode changes |
| Settings.ModbusCommSettings.SetMaxNoOfLines | src/modbuscommsettings.cpp:132-135 | only the log size changes |
| Settings.ModbusCommSettings.SetBaseAddr | src/modbuscommsettings.cpp:142-145 | only the base address changes |
| Settings.ModbusCommSettings.SetTimeOut | src/modbuscommsettings.cpp:151-154 | only the timeout changes |
| Settings.ModbusCommSettings.SetModbusMode | src/modbuscommsettings.cpp:166-169 | only the mode changes |
| Settings.ModbusCommSettings.SetSlaveID | src/modbuscommsettings.cpp:176-179 | only the slave id changes |
| Settings.ModbusCommSettings.SetScanRate | src/modbuscommsettings.cpp:186-189 | only the scan rate changes |
| Settings.ModbusCommSettings.SetFunctionCode | src/modbuscommsettings.cpp:196-199 | only the function code index changes |
| Settings.ModbusCommSettings.SetStartAddr | src/modbuscommsettings.cpp:206-209 | only the start address changes |
| Settings.ModbusCommSettings.SetNoOfRegs | src/modbuscommsettings.cpp:216-219 | only the count changes |
| Settings.ModbusCommSettings.SetBase | src/modbuscommsettings.cpp:226-229 | only the display base changes |
| Settings.AsInt | src/modbuscommsettings.cpp:318-322 | QVariant::toInt: an int variant is itself, a string variant its 64-bit value wrapped to an int (Text.VariantToInt) |
| Settings.Loaded | src/modbuscommsettings.cpp:249-374 | what load reads: every field from its key or its default; LoadDefaults and SaveLoadRoundTrip are its partners |
| Settings.Saved | src/modbuscommsettings.cpp:376-401 | the store after save: every field under its own key, other keys kept; SavedAt and SaveOverwrites are its partners |
| Settings.SerialPortName | src/modbuscommsettings.cpp:59-75 | the device name setSerialPort derives; SerialPortNameReadsBack and SerialPortNameWindows state it |
| Settings.LoadDefaults | src/modbuscommsettings.cpp:252-372 | an empty store loads the defaults: 502, 127.000.000.001, the platform's serial device, port 1, 9600, 8, 1, None, the platform's RTS, 60, 0, 0, logging level 3, mode 0, slave 1, scan 1000, code 0, start 0, count 0, base 1 |
| Settings.SaveLoadRoundTrip | src/modbuscommsettings.cpp:249-401 | load after save restores every field, except a log size whose variant value is 0 (it becomes "60") and, on Windows, the serial device (it becomes "COM") |
| Settings.TcpRoundTrip | src/modbuscommsettings.cpp:252-260 | the TCP section survives save and load |
| Settings.RtuRoundTrip | src/modbuscommsettings.cpp:262-316 | the RTU section survives save and load, the Windows serial device apart |
| Settings.VarRoundTrip | src/modbuscommsettings.cpp:318-337 | the Var section survives save and load, apart from a log size whose variant value is 0 |
| Settings.SessionRoundTrip | src/modbuscommsettings.cpp:339-372 | the Session section survives save and load |
| Settings.SaveOverwrites | src/modbuscommsettings.cpp:379-399 | a save writes all 21 keys, so two saves leave what the second alone would |
| Settings.SavedAt | src/modbuscommsettings.cpp:379-399 | after a save every key is present and holds its own field, whatever the store held |
| Settings.SavedAt0 | src/modbuscommsettings.cpp:379-382 | the TCP keys and the first two serial keys hold their fields |
| Settings.SavedAt1 | src/modbuscommsettings.cpp:383-386 | the port name, baud, data bit and stop bit keys hold their fields |
| Settings.SavedAt2 | src/modbuscommsettings.cpp:387-390 | the parity, RTS, log size and base address keys hold their fields |
| Settings.SavedAt3 | src/modbuscommsettings.cpp:391-394 | the timeout, logging level, mode and slave id keys hold their fields |
| Settings.SavedAt4 | src/modbuscommsettings.cpp:395-399 | the remaining session keys hold their fields |
| Settings.LoadedMaxLinesNonZero | src/modbuscommsettings.cpp:318-322 | whatever the store holds, the loaded log size is never 0 as a variant's toInt reads it |
| Settings.WideMaxLinesKept | src/modbuscommsettings.cpp:318-322 | a stored log size "4294967297" has variant value 1, so load keeps it, and toInt of the kept string is 0 |
| Settings.LoadSaveLoadStable | src/modbuscommsettings.cpp:249-401 | once loaded, the settings survive any number of save/load cycles unchanged |
| Settings.MissingPortDerivesName | src/modbuscommsettings.cpp:274-283 | a missing serial port loads port "1" with the device name setSerialPort would derive |
| Settings.SerialPortNameReadsBack | src/modbuscommsettings.cpp:72-73 | outside Windows the device name is the prefix and a decimal that reads back as the port number minus one |
| Settings.SerialPortNameWindows | src/modbuscommsettings.cpp:66-70 | on Windows the name is "COM" and the port, with the "\\\\.\\" prefix exactly above port 9 |
| Window.Bound | src/mainwindow.cpp:271 | qBound: the result lies in the range, and a value already in it is kept |
| Window.CountRule | src/mainwindow.cpp:243-304 | the switch keeps the count box well formed |
| Window.ModbusFunctionCode | src/mainwindow.cpp:239 | the eight box entries give the eight supported codes, every other index none |
| Text.Wrap32 | src/mainwindow.cpp:598 | a C int result: in the 32-bit range, and exact when the value fits |
| Window.SetValue | src/mainwindow.cpp:271 | QSpinBox::setValue: the value bounded by the range, nothing else changed |
| Window.SetMaximum | src/mainwindow.cpp:248 | QSpinBox::setMaximum: the minimum lowered to a maximum below it, and the value bounded by the new range |
| Window.Is16BitFunction | src/mainwindow.cpp:243-296 | the function codes whose cells are 16 bits wide: the four register codes |
| Window.CountLabel | src/mainwindow.cpp:249-302 | the label of the count box; CountLabelMatchesCode states it |
| Window.MinScanInterval | src/mainwindow.cpp:598 | the scan guard timeOut.toInt() * 1000 * 2 in 32-bit arithmetic; MinScanIntervalWrapped, MinScanIntervalExact, MinScanIntervalWraps and MinScanIntervalPositiveAgain state it |
| Window.CountRuleRead | src/mainwindow.cpp:245-268 | a read code enables the box, caps it at 2000 or 125, keeps a count below the cap and cuts a larger one; the count never exceeds a libmodbus read |
| Window.CountRuleSingleWrite | src/mainwindow.cpp:269-288 | a single write disables the box, keeps its range and forces the count to 1 |
| Window.CountRuleMultipleWrite | src/mainwindow.cpp:275-296 | a multiple write enables the box, caps it at 2000 or 125, and the count is the old one raised to 2 and cut to the cap |
| Window.CountRuleOther | src/mainwindow.cpp:297-303 | any other code enables the box, caps it at 2000 and forces the count to 1 |
| Window.MultipleWriteCapAboveLibrary | src/mainwindow.cpp:275-296 | the window keeps 2000 coils or 125 registers for a multiple write, above what libmodbus sends (1968, 123) |
| Window.CountLabelMatchesCode | src/mainwindow.cpp:249-302 | the label says registers exactly for the 16-bit codes and inputs exactly for code 2 |
| Window.MinScanIntervalExact | src/mainwindow.cpp:598 | up to 1073741 seconds the guard is exactly 2000 times the timeout |
| Window.MinScanIntervalWrapped | src/mainwindow.cpp:598 | for every timeout the guard is the 32-bit two's-complement image of 2000 times it |
| Window.MinScanIntervalWraps | src/mainwindow.cpp:598 | from 1073742 to 2147483 seconds the guard is 2000 times the timeout less 2^32, below zero, so every interval passes |
| Window.MinScanIntervalPositiveAgain | src/mainwindow.cpp:598 | from 2147484 to 3221225 seconds the guard is 2000 times the timeout less 2^32, at least 704, so short intervals are refused again |
| Window.MainWindow.constructor | src/mainwindow.cpp:16-18 | the window over the adapter, the settings and the widgets |
| Window.MainWindow.AddItems | src/mainwindow.cpp:511-525 | the adapter takes the slave, code, start address (without base) and count from the widgets, the table ends with as many rows as the box shows, and the state is AddItemsOutcome of the read-back's frames |
| Window.MainWindow.ChangedNoOfRegs | src/mainwindow.cpp:461-472 | the count is stored and saved in the settings and the adapter, and the table has that many rows |
| Window.MainWindow.SetCount | src/mainwindow.cpp:56 | the box takes the new state; a changed value runs changedNoOfRegs, so the count setting follows the box and the saved store stays in step |
| Window.MainWindow.ShapeReadCount | src/mainwindow.cpp:247-248 | enable, then cap: the box ends as SetMaximum of the enabled box |
| Window.MainWindow.ShapeSingleWriteCount | src/mainwindow.cpp:271-272 | the box is set to 1, then disabled |
| Window.MainWindow.ShapeMultipleWriteCount | src/mainwindow.cpp:277-280 | a count below 2 becomes 2, the box is enabled, then capped |
| Window.MainWindow.ShapeOtherCount | src/mainwindow.cpp:299-301 | the box is set to 1, enabled, then capped at 2000 |
| Window.MainWindow.ShapeCount | src/mainwindow.cpp:243-304 | the box ends as CountRule; only the count setting changes, and it follows the box whenever its value changed |
| Window.MainWindow.SelectFunction | src/mainwindow.cpp:236-304 | the index is stored and saved, the cell width follows the code, the box follows CountRule and the label CountLabel |
| Window.MainWindow.ChangedFunctionCode | src/mainwindow.cpp:230-309 | the box and label follow the rules, the adapter gets the code and the final count, the table has that many rows, and the settings end with the new index, saved |
| Window.MainWindow.UncheckScan | src/mainwindow.cpp:580 | unchecking a checked scan action runs modbusScanCycle(false); an unchecked one is left alone; either way the timer is stopped |
| Window.MainWindow.LoadRequest | src/mainwindow.cpp:584-593 | the bar is hidden and the adapter takes the request with the base address added to the start address in 32-bit arithmetic |
| Window.MainWindow.StartScan | src/mainwindow.cpp:597-619 | the timer starts at the box's interval exactly when it is at least the guard; otherwise the bar says so and the timer is left; the request fields are locked |
| Window.MainWindow.StopScan | src/mainwindow.cpp:607-617 | the timer stops, the fields are unlocked and changedFunctionCode reshapes the box and rebuilds the table |
| Window.MainWindow.ModbusScanCycle | src/mainwindow.cpp:570-621 | an empty table rejects a scan and unchecks it; an accepted scan loads the request with the base address and starts the timer only past the guard; stopping stops the timer and reshapes the box |
| Window.MainWindow.ModbusRequest | src/mainwindow.cpp:539-568 | an empty table shows the request error and sends nothing; otherwise the request is loaded with the base address and one transaction runs, with the adapter's outcome for the transaction's frames |
| Window.MainWindow.OpenSerial | src/mainwindow.cpp:631-639 | the slave id is handed over and the serial line opened with the settings' port name, baud, parity, data bits, stop bits, RTS and timeout |
| Window.MainWindow.OpenNetwork | src/mainwindow.cpp:642-644 | the connection is opened with the settings' address, port and timeout |
| Window.MainWindow.Open | src/mainwindow.cpp:629-646 | RTU for mode entry 0 and TCP otherwise; connected exactly on success, then with that mode and the settings' timeout |
| Window.MainWindow.Connect | src/mainwindow.cpp:629-657 | a failed connect unchecks the action, whose slot disconnects and resets the counters, so the context is null and the scan stopped |
| Window.MainWindow.ModbusConnect | src/mainwindow.cpp:623-662 | disconnecting frees the context and stops the scan; online and the connect action are checked exactly while connected |
| Window.MainWindow.ChangedConnect | src/mainwindow.cpp:367-384 | every toggle resets both counters; afterwards the connect action is checked exactly while connected, and disconnected means no context and no scan |
| Tools.StripZero | forms/tools.cpp:59-62 | at most one leading '0' is removed; a part not starting with '0' is kept |
| Tools.IpConv | forms/tools.cpp:48-67 | the result is Converted: the first four parts, each stripped of one leading '0', joined by dots |
| Tools.Converted | forms/tools.cpp:57-65 | what ipConv returns: the first four parts, each stripped of one leading '0', joined by dots; ConvertedParts and ConvertedCanonical state it |
| Tools.StripParts | forms/tools.cpp:57-63 | the loop strips every part, in order |
| Tools.JoinFour | forms/tools.cpp:65 | the concatenation of four parts with dots is their join |
| Tools.ConvertedParts | forms/tools.cpp:57-65 | the result has exactly four parts, the first four of the input stripped; further parts are dropped |
| Tools.ConvertedCanonical | forms/tools.cpp:61-62 | four parts none starting with '0' convert to themselves |
| Tools.ConvertedKeepsFurtherZeros | forms/tools.cpp:59-60 | "127.000.000.001" becomes "127.00.00.01": only one zero goes |
| Tools.NulIndex | forms/tools.cpp:193 | the first NUL byte, or the length; no NUL before it |
| Tools.Chars | forms/tools.cpp:193 | one character per byte |
| Tools.Right | forms/tools.cpp:194 | QString::right: the last n characters, or the whole string when n is negative or not below the length |
| Tools.CString | forms/tools.cpp:193 | fromUtf8 of a char pointer: the characters before the first NUL |
| Tools.IdTextAsWritten | forms/tools.cpp:193-194 | the ID text as the code computes it: the C string of the whole reply less its first two characters; IdTextLostWhenStatusOff shows where it goes wrong |
| Tools.IdText | forms/tools.cpp:193-194 | the intended ID text: the C string after the slave id and run status bytes; IdTextReadsBack and IdTextAgreesWithNonZeroHeader state it |
| Tools.RunStatus | forms/tools.cpp:191-192 | "ON" exactly when the run status byte is not NUL |
| Tools.DiagnosticsText | forms/tools.cpp:188-210 | the text a Report Slave ID adds: status and ID lines above a result of 1, the error or unknown-error text otherwise; DiagnosticsTextDistinguishes states it |
| Tools.IdTextReadsBack | forms/tools.cpp:193-194 | the ID text of a reply with two header bytes, NUL-free data and a NUL is that data |
| Tools.NulIndexAt | forms/tools.cpp:193 | the first NUL after NUL-free data sits right after it |
| Tools.IdTextAgreesWithNonZeroHeader | forms/tools.cpp:193-194 | when neither header byte is NUL the code's ID text is the intended one |
| Tools.IdTextLostWhenStatusOff | forms/tools.cpp:191-194 | with run status OFF the code prints "A" for reply 41 00 42 43 00 where "BC" is meant |
| Tools.DiagnosticsTextDistinguishes | forms/tools.cpp:188-210 | success (a result above 1) and failure texts are told apart by their first line |
| Tools.ToolsWindow.constructor | forms/tools.cpp:6-34 | Report Slave ID is the only command and the output is empty |
| Tools.ToolsWindow.ChangedModbusMode | forms/tools.cpp:69-82 | index 0 lists Report Slave ID only; any other lists Report Slave ID, Ping and Port Status |
| Tools.ToolsWindow.ModbusDiagnostics | forms/tools.cpp:171-215 | function code 0x11; set slave and report into a zeroed 1024-byte buffer of which at most 253 bytes are written; the run status and ID above 1, the failure text otherwise, followed by a flush; the report's frames reach the adapter's raw log through the hooks |
| Tools.ToolsWindow.ShowReply | forms/tools.cpp:188-213 | a result above 1 appends the status text; any other the failure text and a flush |
| Tools.ToolsWindow.ShowStatus | forms/tools.cpp:190-194 | the run status is ON exactly when the second byte is not NUL, then the ID line |
| Tools.ToolsWindow.ShowFailure | forms/tools.cpp:198-212 | an error for a negative result, an unknown error otherwise, with the error text, then a flush |
| Tools.ToolsWindow.DiagnosticsProc | forms/tools.cpp:122-134 | without a context "Not Connected." and no library call; with one the diagnostics, whose frames the hooks log |

## Left out

- Timestamps, the QsLog log output, the wait cursor and `qApp->processEvents` are side effects only. A log line records the kind of stamp it carries.
- Capping the raw log (`RawDataModel::setMaxNoOfLines`) is left out. `registersmodel.cpp`, `rawdatamodel.cpp` and `eutils.h` are not part of this model.
- The contents and number of the libmodbus frames, its timing and its error numbers are not modelled. Each primitive's result and the frames it hands to the traffic hooks are unconstrained, apart from the request-size limits (a refused request sends nothing). `modbus_strerror` is a parameter.
- The library runs the traffic hooks while a primitive is under way. The model runs them (`Adapter.ModbusAdapter.Monitor`) on the frames the primitive returns, right after it returns and before the adapter's own lines. Nothing observes the log in between, so the resulting log and pending flag are the same.
- `EUtils::ModbusFunctionCode` is taken to list the eight codes in numeric order. `EUtils::parity` is a parameter of the window (`parityOf`).
- The status bar (`updateStatusBar`), `refreshView` and the session enable flags are presentation only. The model keeps `online` for the actions offered while connected.
- The other window slots are not part of the rules: base, signed and slave id changes, sessions, dialogs, headers and translations.
- The poll timer's timeout signal is not modelled. What it runs is `Adapter.ModbusAdapter.Transaction`.
- The window and Tools constructors' widget setup is not modelled, nor the range of the count box set in the form file.
- QSettings file I/O and its format are left out. The store is a map; `loadSession`/`saveSession` pick a file and are not modelled.
- The getters are not separate members: each reads a field that its setter writes.
- `execCmd`, `clear`, `exit`, `pingProc`, `pingData` and `portProc` are left out: they start external processes and sockets.
- `QString::fromUtf8` is modelled one character per byte; UTF-8 decoding of multi-byte sequences is left out.
- Tools.DiagnosticsText: the ID line is the intended Tools.IdText, not the code's Tools.IdTextAsWritten; the two agree when neither header byte is NUL (Tools.IdTextAgreesWithNonZeroHeader) and differ as Tools.IdTextLostWhenStatusOff shows.
- Tools.ToolsWindow.ShowStatus: shows the intended ID (Tools.IdText) rather than the text forms/tools.cpp:193-194 prints; see Tools.DiagnosticsText.
- Tools.ToolsWindow.ShowReply: on success shows the intended ID rather than the printed one; see Tools.DiagnosticsText.
- Tools.ToolsWindow.ModbusDiagnostics: the output it appends carries the intended ID rather than the printed one; see Tools.DiagnosticsText.
- Models.ValueAt: a read past the last row gives 0. `RegistersModel::value` is not part of this model, so what it returns for a write whose count exceeds the table (src/modbusadapter.cpp:307-333) is not captured.
- Models.RegistersModel.RowCount: taken to be the number of cells, standing in for `RegistersModel::rowCount`, which is not part of this model. The window's empty-table rejection rests on it.
- Tools.IpConv: requires at least four parts, none of them empty, because `at(0)` of an empty part (forms/tools.cpp:59) and `at(3)` of a shorter list (forms/tools.cpp:65) go out of range.
- Adapter.ModbusAdapter.ReadData: requires that no freed context is held, because the code would hand the freed pointer to libmodbus. Within the window this cannot happen: after every slot `Window.MainWindow.Valid` holds, and a failed connect unchecks the action, which nulls the context.
- Adapter.ModbusAdapter.WriteData: requires a non-negative count for the multiple writes, because `new uint8_t[noOfItems]` is undefined for a negative count. The count box never goes below 0.
- Tools.ToolsWindow.DiagnosticsProc: requires that no freed context is held, for the same reason as ReadData. With a context it does not restate the library calls that `Tools.ToolsWindow.ModbusDiagnostics` states, and it shows the intended ID rather than the printed one (see Tools.DiagnosticsText).
- Adapter.ModbusAdapter.Transaction: the packet count is an unbounded counter. The source's `int` counter (src/modbusadapter.cpp:190) overflows past INT_MAX; signed overflow is undefined in C++, so there is no single behaviour to model.
- Adapter.ModbusAdapter.ReportFailure: the error count is unbounded for the same reason (src/modbusadapter.cpp:271 and src/modbusadapter.cpp:356).
- Adapter.ModbusAdapter.Transaction: requires that no freed context is held, for the same reason as ReadData, even for a function code that is neither a read nor a write and touches no context. The window guarantees it as it does for ReadData.
- Adapter.ModbusAdapter.AddItems: requires that no freed context is held, for the same reason as ReadData, even though `addItems` returns before any library call when not connected (src/modbusadapter.cpp:441-442). The window guarantees it as it does for ReadData.
- Settings.SerialPortName: `port.toInt() - 1` is not wrapped. For port INT_MIN the source's subtraction overflows, which is undefined in C++.
- Settings.LoadedMaxLinesNonZero: the guard is the variant's toInt, so the kept string can still read as 0 where the window later applies QString::toInt to it (src/mainwindow.cpp:178), as Settings.WideMaxLinesKept shows. Applying the log size is outside this model.
- Window.MainWindow.constructor: the signal connections of src/mainwindow.cpp:49-62 are assumed, not modelled: the slots are called directly. For example, `Window.MainWindow.SetCount` runs changedNoOfRegs on a change because of the valueChanged connection at src/mainwindow.cpp:56.
- Window.MainWindow.ModbusScanCycle: the rejected path does not state the bar it ends with. The nested `modbusScanCycle(false)` hides it again, and the rebuilt table's read-back may show its own error. The library trace of the rebuilt table is not restated.
- Window.MainWindow.StopScan: states the timer, the box, the code and the row count, not the read-back's trace.
- Window.MainWindow.Open: states only the outcome, the mode and the timeout. The log lines, the bar and the library calls are stated by `Window.MainWindow.OpenSerial` and `Window.MainWindow.OpenNetwork`.
- Window.MainWindow.Connect: does not restate the log and library trace of the connect or of the cascade.
- Window.MainWindow.ModbusConnect: does not restate the log and library trace of the connect or of the cascade.
- Window.MainWindow.ChangedConnect: does not restate the log and library trace of the connect or of the cascade.

## Findings

| source | as written | input that shows it | evidently intended | confidence | as-written member | corrected member |
|---|---|---|---|---|---|---|
| forms/tools.cpp:193-194 | The ID is `QString::fromUtf8((char*)dest)` less its first two characters. The string stops at the first NUL, so with run status OFF (`dest[1] == 0`) it is one character long. `right(-1)` then returns it whole: the slave id byte is shown instead of the additional data. | Report Slave ID reply 41 00 42 43 00 with a result above 1: the code shows ID "A" | The additional data after the slave id and run status bytes: ID "BC" | not executed | Tools.IdTextAsWritten, shown by Tools.IdTextLostWhenStatusOff | Tools.IdText, with Tools.IdTextReadsBack; used by Tools.ToolsWindow.ShowStatus and Tools.ToolsWindow.ModbusDiagnostics |
