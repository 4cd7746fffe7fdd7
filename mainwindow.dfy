/**
 * The request rules of the main window (MainWindow): how picking a function
 * code shapes the count spin box and the register table, how a single
 * request and the scan are started and refused, and how connecting and
 * disconnecting couple to the scan and to the counters.
 *
 * The widgets the rules read and write are one `Form` value. Qt signals are
 * written out as calls: a spin box whose value changes runs
 * changedNoOfRegs, unchecking a checked scan action runs
 * modbusScanCycle(false), and unchecking a checked connect action runs
 * changedConnect(false).
 */
module Window {
  import Text
  import EUtils
  import Libmodbus
  import Models
  import Settings
  import Adapter

  // ---------------------------------------------------------------------------
  // The count spin box

  /** The longest count the window accepts for bit and for register codes. */
  const MaxBits: int := 2000
  const MaxRegisters: int := 125

  /** A QSpinBox: its value, its range and whether it takes input. */
  datatype SpinBox = SpinBox(value: int, minimum: int, maximum: int, enabled: bool)

  /** A spin box whose value lies in its range, within 0 .. 2^31 - 1. */
  predicate WellFormed(b: SpinBox)
  {
    0 <= b.minimum <= b.value <= b.maximum < 0x8000_0000
  }

  /** qBound: `v` brought into `lo .. hi`. */
  function Bound(lo: int, v: int, hi: int): (r: int)
    requires lo <= hi
    ensures lo <= r <= hi
    ensures lo <= v <= hi ==> r == v
  {
    if v < lo then lo else if v > hi then hi else v
  }

  /** QSpinBox::setValue: the value, bounded by the range. */
  function SetValue(b: SpinBox, v: int): SpinBox
    requires b.minimum <= b.maximum
  {
    b.(value := Bound(b.minimum, v, b.maximum))
  }

  /** QSpinBox::setMaximum: the minimum follows a maximum below it, and the value is bounded by the new range. */
  function SetMaximum(b: SpinBox, m: int): SpinBox
  {
    var lo := if b.minimum > m then m else b.minimum;
    b.(minimum := lo, maximum := m, value := Bound(lo, b.value, m))
  }

  /**
   * The count spin box after changedFunctionCode, step by step as the
   * switch does it: read codes enable it and cap it, single writes force 1
   * and disable it, multiple writes raise a count below 2 to 2, enable it
   * and cap it, and any other code forces 1, enables it and caps it at 2000.
   */
  function CountRule(b: SpinBox, fc: int): (r: SpinBox)
    requires WellFormed(b)
    ensures WellFormed(r)
  {
    if fc == EUtils.ReadCoils || fc == EUtils.ReadDiscreteInputs then
      SetMaximum(b.(enabled := true), MaxBits)
    else if fc == EUtils.ReadHoldingRegisters || fc == EUtils.ReadInputRegisters then
      SetMaximum(b.(enabled := true), MaxRegisters)
    else if fc == EUtils.WriteSingleCoil || fc == EUtils.WriteSingleRegister then
      SetValue(b, 1).(enabled := false)
    else if fc == EUtils.WriteMultipleCoils || fc == EUtils.WriteMultipleRegisters then
      var raised := if b.value < 2 then SetValue(b, 2) else b;
      SetMaximum(raised.(enabled := true), if fc == EUtils.WriteMultipleCoils then MaxBits else MaxRegisters)
    else
      SetMaximum(SetValue(b, 1).(enabled := true), MaxBits)
  }

  /** Whether a function code shows 16-bit cells: the register codes. */
  predicate Is16BitFunction(fc: int)
  {
    fc == EUtils.ReadHoldingRegisters || fc == EUtils.ReadInputRegisters
    || fc == EUtils.WriteSingleRegister || fc == EUtils.WriteMultipleRegisters
  }

  const CoilsLabel: string := "Number of Coils"
  const InputsLabel: string := "Number of Inputs"
  const RegistersLabel: string := "Number of Registers"

  /** The label beside the count box. */
  function CountLabel(fc: int): string
  {
    if fc == EUtils.ReadDiscreteInputs then InputsLabel
    else if Is16BitFunction(fc) then RegistersLabel
    else CoilsLabel
  }

  /**
   * EUtils::ModbusFunctionCode: the function code of an entry of the
   * function code box, which lists the eight codes in numeric order; any
   * other index gives 0, which is no function.
   */
  function ModbusFunctionCode(index: int): (fc: int)
    ensures 0 <= index < 8 ==> EUtils.IsSupportedFunction(fc)
    ensures !(0 <= index < 8) ==> !EUtils.IsSupportedFunction(fc)
  {
    var codes := [EUtils.ReadCoils, EUtils.ReadDiscreteInputs, EUtils.ReadHoldingRegisters, EUtils.ReadInputRegisters,
                  EUtils.WriteSingleCoil, EUtils.WriteSingleRegister, EUtils.WriteMultipleCoils, EUtils.WriteMultipleRegisters];
    if 0 <= index < 8 then codes[index] else 0
  }

  // ---------------------------------------------------------------------------
  // The scan-rate guard

  /** The smallest interval the scan accepts: `timeOut.toInt() * 1000 * 2`, in 32-bit arithmetic. */
  function MinScanInterval(timeOut: string): int
  {
    Text.Wrap32(Text.Wrap32(Text.ToInt(timeOut) * 1000) * 2)
  }

  const RequestFailedText: string := "Request failed\nAdd items to Registers Table."
  const ScanRateText: string := "Scan rate  should be at least 2 * Timeout."

  /** The box index of the RTU mode; any other index connects over TCP. */
  const RtuIndex: int := 0

  // ---------------------------------------------------------------------------
  // Properties of the rules

  /** The smaller of two integers. */
  function Min(a: int, b: int): int
  {
    if a <= b then a else b
  }

  /**
   * A read code enables the box and caps it at 2000 bits or 125
   * registers, keeping a count below the cap and cutting a larger one to
   * the cap; the count never exceeds what one libmodbus read may ask for.
   */
  lemma CountRuleRead(b: SpinBox, fc: int)
    requires WellFormed(b) && EUtils.IsReadFunction(fc)
    ensures var cap := if fc == EUtils.ReadCoils || fc == EUtils.ReadDiscreteInputs then MaxBits else MaxRegisters;
      var r := CountRule(b, fc);
      && r.enabled && r.maximum == cap && r.value == Min(b.value, cap)
      && r.value <= (if cap == MaxBits then Libmodbus.MaxReadBits else Libmodbus.MaxReadRegisters)
  {
  }

  /**
   * A single write disables the box and leaves its range; the count is 1
   * whenever the range admits 1.
   */
  lemma CountRuleSingleWrite(b: SpinBox, fc: int)
    requires WellFormed(b) && (fc == EUtils.WriteSingleCoil || fc == EUtils.WriteSingleRegister)
    ensures var r := CountRule(b, fc);
      && !r.enabled && r.minimum == b.minimum && r.maximum == b.maximum
      && (b.minimum <= 1 <= b.maximum ==> r.value == 1)
  {
  }

  /**
   * A multiple write enables the box and caps it at 2000 coils or 125
   * registers; when the range admits 2, the count is at least 2 and is the
   * old count raised to 2 and cut to the cap.
   */
  lemma CountRuleMultipleWrite(b: SpinBox, fc: int)
    requires WellFormed(b) && (fc == EUtils.WriteMultipleCoils || fc == EUtils.WriteMultipleRegisters)
    ensures var cap := if fc == EUtils.WriteMultipleCoils then MaxBits else MaxRegisters;
      var r := CountRule(b, fc);
      && r.enabled && r.maximum == cap
      && (b.minimum <= 2 <= b.maximum ==> 2 <= r.value == Min(if b.value < 2 then 2 else b.value, cap))
  {
  }

  /** Any other code enables the box, caps it at 2000 and sets the count to 1 when the range admits 1. */
  lemma CountRuleOther(b: SpinBox, fc: int)
    requires WellFormed(b) && !EUtils.IsSupportedFunction(fc)
    ensures var r := CountRule(b, fc);
      && r.enabled && r.maximum == MaxBits
      && (b.minimum <= 1 <= b.maximum ==> r.value == 1)
  {
  }

  /**
   * The caps of the multiple writes are the read caps, above what one
   * libmodbus write may send (1968 coils, 123 registers): the rule keeps a
   * count of 2000 coils or 125 registers, which the library then refuses.
   */
  lemma MultipleWriteCapAboveLibrary()
    ensures var coils := CountRule(SpinBox(2000, 1, 2000, true), EUtils.WriteMultipleCoils);
      coils.value == 2000 > Libmodbus.MaxWriteBits
    ensures var registers := CountRule(SpinBox(125, 1, 125, true), EUtils.WriteMultipleRegisters);
      registers.value == 125 > Libmodbus.MaxWriteRegisters
  {
  }

  /** The count label names coils, inputs or registers as the code reads or writes them. */
  lemma CountLabelMatchesCode(fc: int)
    requires EUtils.IsSupportedFunction(fc)
    ensures CountLabel(fc) == RegistersLabel <==> Is16BitFunction(fc)
    ensures CountLabel(fc) == InputsLabel <==> fc == EUtils.ReadDiscreteInputs
  {
  }

  /**
   * The guard is the 32-bit two's-complement image of twice the timeout in
   * milliseconds, whatever the timeout: wrapping after each product gives
   * what one wrap of the whole product gives.
   */
  lemma MinScanIntervalWrapped(timeOut: string)
    ensures MinScanInterval(timeOut) == Text.Wrap32(Text.ToInt(timeOut) * 2000)
  {
    var t: int := Text.ToInt(timeOut);
    var p := Text.Wrap32(t * 1000);
    Text.Wrap32Congruent(t * 1000);
    var k := (t * 1000 - p) / 0x1_0000_0000;
    assert p * 2 == t * 2000 - (2 * k) * 0x1_0000_0000;
    Text.Wrap32Shift(t * 2000, -2 * k);
  }

  /** Up to a timeout of 1073741 seconds the guard is exactly twice the timeout in milliseconds. */
  lemma MinScanIntervalExact(timeOut: string)
    requires 0 <= Text.ToInt(timeOut) <= 1073741
    ensures MinScanInterval(timeOut) == Text.ToInt(timeOut) * 2000
  {
  }

  /**
   * From 1073742 to 2147483 seconds twice the timeout in milliseconds
   * exceeds the int range and wraps below zero, so every interval passes.
   */
  lemma MinScanIntervalWraps(timeOut: string)
    requires 1073742 <= Text.ToInt(timeOut) <= 2147483
    ensures MinScanInterval(timeOut) == Text.ToInt(timeOut) * 2000 - 0x1_0000_0000 < 0
  {
    MinScanIntervalWrapped(timeOut);
    Text.Wrap32Shift(Text.ToInt(timeOut) * 2000 - 0x1_0000_0000, 1);
  }

  /**
   * From 2147484 to 3221225 seconds the product wraps once more into the
   * positive range: the guard is positive again, 704 ms at 2147484 seconds.
   */
  lemma MinScanIntervalPositiveAgain(timeOut: string)
    requires 2147484 <= Text.ToInt(timeOut) <= 3221225
    ensures MinScanInterval(timeOut) == Text.ToInt(timeOut) * 2000 - 0x1_0000_0000 >= 704
  {
    MinScanIntervalWrapped(timeOut);
    Text.Wrap32Shift(Text.ToInt(timeOut) * 2000 - 0x1_0000_0000, 1);
  }

  // ---------------------------------------------------------------------------
  // The window

  /**
   * The widgets: the function code box, the mode box, the slave id, start
   * address and interval boxes, the count box and its label, the scan and
   * connect actions, whether the request fields take input (they do not
   * while scanning) and whether read/write and scan are offered (they are
   * while connected).
   */
  datatype Form = Form(functionIndex: Text.Int32, modeIndex: int, slaveId: int, startAddress: int, interval: int,
                       count: SpinBox, countLabel: string, scanChecked: bool, connectChecked: bool,
                       requestEditable: bool, online: bool)

  class MainWindow {
    const adapter: Adapter.ModbusAdapter
    const settings: Settings.ModbusCommSettings
    /** EUtils::parity, the parity character of a parity name; not part of this model. */
    const parityOf: string -> char
    var ui: Form

    /**
     * The adapter is consistent, the count box well formed, and the poll
     * timer runs only while the scan action is checked.
     */
    ghost predicate Base()
      reads this, adapter, adapter.lib
    {
      adapter.Valid() && WellFormed(ui.count) && (adapter.pollRunning ==> ui.scanChecked)
    }

    /** Base, and no freed context is held: the state between two slots. */
    ghost predicate Valid()
      reads this, adapter, adapter.lib
    {
      Base() && !adapter.handle.Dangling?
    }

    /** The window over an adapter and the settings, starting from the given widgets. */
    constructor(adapter: Adapter.ModbusAdapter, settings: Settings.ModbusCommSettings, parityOf: string -> char, ui: Form)
      ensures this.adapter == adapter && this.settings == settings && this.parityOf == parityOf && this.ui == ui
    {
      this.adapter := adapter;
      this.settings := settings;
      this.parityOf := parityOf;
      this.ui := ui;
    }

    /**
     * addItems: the request fields of the adapter from the widgets (the
     * start address as shown, without the base address), then the adapter
     * rebuilds its table, which has as many rows as the count box shows.
     */
    method AddItems() returns (ghost ret: int, ghost err: int, ghost traffic: seq<Libmodbus.Frame>)
      requires Valid()
      modifies adapter`slave, adapter`functionCode, adapter`startAddr, adapter`numOfRegs, adapter`refreshes, adapter`errors, adapter`transactionIsPending,
        adapter.lib`calls, adapter.lib`errno, adapter.regModel, adapter.rawModel, adapter.infoBar, adapter.dest, adapter.dest16
      ensures Valid()
      ensures adapter.slave == ui.slaveId && adapter.functionCode == ModbusFunctionCode(ui.functionIndex)
      ensures adapter.startAddr == ui.startAddress && adapter.numOfRegs == ui.count.value
      ensures |adapter.regModel.cells| == ui.count.value
      ensures adapter.regModel.isWrite == EUtils.IsWriteFunction(adapter.functionCode)
      ensures adapter.regModel.is16Bit == old(adapter.regModel.is16Bit)
      ensures adapter.Snapshot() ==
        Adapter.AddItemsOutcome(old(adapter.Snapshot()), adapter.connected, adapter.handle, adapter.mode, ui.slaveId,
                                adapter.functionCode, ui.startAddress, ui.count.value, traffic,
                                adapter.Received(Adapter.ReadBackFunction(adapter.functionCode), ui.count.value), ret, adapter.Reason(err))
    {
      adapter.SetSlave(ui.slaveId);
      adapter.SetFunctionCode(ModbusFunctionCode(ui.functionIndex));
      adapter.SetStartAddr(ui.startAddress);
      adapter.SetNumOfRegs(ui.count.value);
      ghost var before := adapter.Snapshot();
      assert before == old(adapter.Snapshot());
      ret, err, traffic := adapter.AddItems();
      Adapter.AddItemsRows(before, adapter.connected, adapter.handle, adapter.mode, ui.slaveId, adapter.functionCode,
                           ui.startAddress, ui.count.value, traffic, adapter.Received(Adapter.ReadBackFunction(adapter.functionCode), ui.count.value),
                           ret, adapter.Reason(err));
    }

    /**
     * changedNoOfRegs: the new count is stored in the settings, which are
     * saved, and in the adapter, and the table is rebuilt.
     */
    method ChangedNoOfRegs(value: Text.Int32)
      requires Valid() && value == ui.count.value
      modifies settings`session, settings`entries,
        adapter`slave, adapter`functionCode, adapter`startAddr, adapter`numOfRegs, adapter`refreshes, adapter`errors, adapter`transactionIsPending,
        adapter.lib`calls, adapter.lib`errno, adapter.regModel, adapter.rawModel, adapter.infoBar, adapter.dest, adapter.dest16
      ensures Valid()
      ensures settings.session == old(settings.session).(noOfRegs := value)
      ensures settings.entries == Settings.Saved(old(settings.entries), settings.Current())
      ensures adapter.numOfRegs == value && |adapter.regModel.cells| == value
      ensures adapter.regModel.is16Bit == old(adapter.regModel.is16Bit)
    {
      settings.SetNoOfRegs(value);
      settings.SaveSettings();
      adapter.SetNumOfRegs(value);
      ghost var ret, err, traffic := AddItems();
    }

    /**
     * Since the settings were `s0` with the count box at `v0`, only the
     * count setting has changed, it holds either its old value or the
     * box's, and it holds the box's whenever the box's value has changed.
     */
    ghost predicate CountSettingFollows(s0: Settings.SessionGroup, v0: int)
      reads this, settings
    {
      && settings.session == s0.(noOfRegs := settings.session.noOfRegs)
      && (ui.count.value != v0 ==> settings.session.noOfRegs == ui.count.value)
      && (settings.session.noOfRegs == s0.noOfRegs || settings.session.noOfRegs == ui.count.value)
    }

    /**
     * The count box takes state `b`; when its value changes, valueChanged
     * runs changedNoOfRegs. A store that held the settings saved over `e0`
     * still does, and the count setting keeps following the box.
     */
    method SetCount(b: SpinBox, ghost e0: map<Settings.Key, Settings.Variant>, ghost s0: Settings.SessionGroup, ghost v0: int)
      requires Valid() && WellFormed(b)
      requires settings.entries == Settings.Saved(e0, settings.Current())
      requires CountSettingFollows(s0, v0)
      modifies this`ui, settings`session, settings`entries,
        adapter`slave, adapter`functionCode, adapter`startAddr, adapter`numOfRegs, adapter`refreshes, adapter`errors, adapter`transactionIsPending,
        adapter.lib`calls, adapter.lib`errno, adapter.regModel, adapter.rawModel, adapter.infoBar, adapter.dest, adapter.dest16
      ensures Valid()
      ensures ui == old(ui).(count := b)
      ensures settings.session == if b.value != old(ui.count.value) then old(settings.session).(noOfRegs := b.value) else old(settings.session)
      ensures settings.entries == Settings.Saved(e0, settings.Current())
      ensures CountSettingFollows(s0, v0)
      ensures adapter.regModel.is16Bit == old(adapter.regModel.is16Bit)
    {
      var changed := b.value != ui.count.value;
      ui := ui.(count := b);
      if changed {
        ghost var r1 := settings.Current();
        ChangedNoOfRegs(b.value);
        Settings.SaveOverwrites(e0, r1, settings.Current());
      }
    }

    /** The read codes' case of the switch: the box is enabled, then capped at `cap`. */
    method ShapeReadCount(cap: int, ghost e0: map<Settings.Key, Settings.Variant>, ghost s0: Settings.SessionGroup, ghost v0: int)
      requires Valid() && 0 < cap < 0x8000_0000
      requires settings.entries == Settings.Saved(e0, settings.Current())
      requires CountSettingFollows(s0, v0)
      modifies this`ui, settings`session, settings`entries,
        adapter`slave, adapter`functionCode, adapter`startAddr, adapter`numOfRegs, adapter`refreshes, adapter`errors, adapter`transactionIsPending,
        adapter.lib`calls, adapter.lib`errno, adapter.regModel, adapter.rawModel, adapter.infoBar, adapter.dest, adapter.dest16
      ensures Valid()
      ensures ui == old(ui).(count := SetMaximum(old(ui.count).(enabled := true), cap))
      ensures settings.entries == Settings.Saved(e0, settings.Current())
      ensures CountSettingFollows(s0, v0)
      ensures adapter.regModel.is16Bit == old(adapter.regModel.is16Bit)
    {
      SetCount(ui.count.(enabled := true), e0, s0, v0);
      SetCount(SetMaximum(ui.count, cap), e0, s0, v0);
    }

    /** The single writes' case: the box is set to 1, then disabled. */
    method ShapeSingleWriteCount(ghost e0: map<Settings.Key, Settings.Variant>, ghost s0: Settings.SessionGroup, ghost v0: int)
      requires Valid()
      requires settings.entries == Settings.Saved(e0, settings.Current())
      requires CountSettingFollows(s0, v0)
      modifies this`ui, settings`session, settings`entries,
        adapter`slave, adapter`functionCode, adapter`startAddr, adapter`numOfRegs, adapter`refreshes, adapter`errors, adapter`transactionIsPending,
        adapter.lib`calls, adapter.lib`errno, adapter.regModel, adapter.rawModel, adapter.infoBar, adapter.dest, adapter.dest16
      ensures Valid()
      ensures ui == old(ui).(count := SetValue(old(ui.count), 1).(enabled := false))
      ensures settings.entries == Settings.Saved(e0, settings.Current())
      ensures CountSettingFollows(s0, v0)
      ensures adapter.regModel.is16Bit == old(adapter.regModel.is16Bit)
    {
      SetCount(SetValue(ui.count, 1), e0, s0, v0);
      SetCount(ui.count.(enabled := false), e0, s0, v0);
    }

    /** The multiple writes' case: a count below 2 is set to 2, the box is enabled, then capped at `cap`. */
    method ShapeMultipleWriteCount(cap: int, ghost e0: map<Settings.Key, Settings.Variant>, ghost s0: Settings.SessionGroup, ghost v0: int)
      requires Valid() && 2 <= cap < 0x8000_0000
      requires settings.entries == Settings.Saved(e0, settings.Current())
      requires CountSettingFollows(s0, v0)
      modifies this`ui, settings`session, settings`entries,
        adapter`slave, adapter`functionCode, adapter`startAddr, adapter`numOfRegs, adapter`refreshes, adapter`errors, adapter`transactionIsPending,
        adapter.lib`calls, adapter.lib`errno, adapter.regModel, adapter.rawModel, adapter.infoBar, adapter.dest, adapter.dest16
      ensures Valid()
      ensures ui == old(ui).(count := SetMaximum((if old(ui.count.value) < 2 then SetValue(old(ui.count), 2) else old(ui.count)).(enabled := true), cap))
      ensures settings.entries == Settings.Saved(e0, settings.Current())
      ensures CountSettingFollows(s0, v0)
      ensures adapter.regModel.is16Bit == old(adapter.regModel.is16Bit)
    {
      if ui.count.value < 2 {
        SetCount(SetValue(ui.count, 2), e0, s0, v0);
      }
      SetCount(ui.count.(enabled := true), e0, s0, v0);
      SetCount(SetMaximum(ui.count, cap), e0, s0, v0);
    }

    /** The default case: the box is set to 1, enabled, then capped at 2000. */
    method ShapeOtherCount(ghost e0: map<Settings.Key, Settings.Variant>, ghost s0: Settings.SessionGroup, ghost v0: int)
      requires Valid()
      requires settings.entries == Settings.Saved(e0, settings.Current())
      requires CountSettingFollows(s0, v0)
      modifies this`ui, settings`session, settings`entries,
        adapter`slave, adapter`functionCode, adapter`startAddr, adapter`numOfRegs, adapter`refreshes, adapter`errors, adapter`transactionIsPending,
        adapter.lib`calls, adapter.lib`errno, adapter.regModel, adapter.rawModel, adapter.infoBar, adapter.dest, adapter.dest16
      ensures Valid()
      ensures ui == old(ui).(count := SetMaximum(SetValue(old(ui.count), 1).(enabled := true), MaxBits))
      ensures settings.entries == Settings.Saved(e0, settings.Current())
      ensures CountSettingFollows(s0, v0)
      ensures adapter.regModel.is16Bit == old(adapter.regModel.is16Bit)
    {
      SetCount(SetValue(ui.count, 1), e0, s0, v0);
      SetCount(ui.count.(enabled := true), e0, s0, v0);
      SetCount(SetMaximum(ui.count, MaxBits), e0, s0, v0);
    }

    /**
     * The switch of changedFunctionCode on the count box: the box ends as
     * CountRule says. The count setting follows the box whenever its value
     * changed, and nothing else in the settings changes.
     */
    method ShapeCount(fc: int, ghost e0: map<Settings.Key, Settings.Variant>)
      requires Valid()
      requires settings.entries == Settings.Saved(e0, settings.Current())
      modifies this`ui, settings`session, settings`entries,
        adapter`slave, adapter`functionCode, adapter`startAddr, adapter`numOfRegs, adapter`refreshes, adapter`errors, adapter`transactionIsPending,
        adapter.lib`calls, adapter.lib`errno, adapter.regModel, adapter.rawModel, adapter.infoBar, adapter.dest, adapter.dest16
      ensures Valid()
      ensures ui == old(ui).(count := CountRule(old(ui.count), fc))
      ensures CountSettingFollows(old(settings.session), old(ui.count.value))
      ensures settings.entries == Settings.Saved(e0, settings.Current())
      ensures adapter.regModel.is16Bit == old(adapter.regModel.is16Bit)
    {
      ghost var s0, v0 := settings.session, ui.count.value;
      if fc == EUtils.ReadCoils || fc == EUtils.ReadDiscreteInputs {
        ShapeReadCount(MaxBits, e0, s0, v0);
      } else if fc == EUtils.ReadHoldingRegisters || fc == EUtils.ReadInputRegisters {
        ShapeReadCount(MaxRegisters, e0, s0, v0);
      } else if fc == EUtils.WriteSingleCoil || fc == EUtils.WriteSingleRegister {
        ShapeSingleWriteCount(e0, s0, v0);
      } else if fc == EUtils.WriteMultipleCoils || fc == EUtils.WriteMultipleRegisters {
        ShapeMultipleWriteCount(if fc == EUtils.WriteMultipleCoils then MaxBits else MaxRegisters, e0, s0, v0);
      } else {
        ShapeOtherCount(e0, s0, v0);
      }
    }

    /**
     * The part of changedFunctionCode before the table is rebuilt: the box
     * index is stored and saved, the cell width follows the code, the count
     * box is shaped and its label set.
     */
    method SelectFunction(currIndex: Text.Int32, fc: int)
      requires Valid() && fc == ModbusFunctionCode(currIndex)
      modifies this`ui, settings`session, settings`entries,
        adapter`slave, adapter`functionCode, adapter`startAddr, adapter`numOfRegs, adapter`refreshes, adapter`errors, adapter`transactionIsPending,
        adapter.lib`calls, adapter.lib`errno, adapter.regModel, adapter.rawModel, adapter.infoBar, adapter.dest, adapter.dest16
      ensures Valid()
      ensures ui == old(ui).(count := CountRule(old(ui.count), fc), countLabel := CountLabel(fc))
      ensures adapter.regModel.is16Bit == Is16BitFunction(fc)
      ensures CountSettingFollows(old(settings.session).(functionCode := currIndex), old(ui.count.value))
      ensures settings.entries == Settings.Saved(old(settings.entries), settings.Current())
    {
      settings.SetFunctionCode(currIndex);
      settings.SaveSettings();
      adapter.regModel.SetIs16Bit(Is16BitFunction(fc));
      ShapeCount(fc, old(settings.entries));
      ui := ui.(countLabel := CountLabel(fc));
    }

    /**
     * changedFunctionCode: stores and saves the box index, sets the cell
     * width of the code, shapes the count box by CountRule (every change of
     * its value runs changedNoOfRegs), hands the final count to the adapter
     * and rebuilds the table, which ends with as many rows as the box shows.
     * The settings end with the new index, with the count setting following
     * the box whenever its value changed, and are saved.
     */
    method ChangedFunctionCode(currIndex: Text.Int32)
      requires Valid() && currIndex == ui.functionIndex
      modifies this`ui, settings`session, settings`entries,
        adapter`slave, adapter`functionCode, adapter`startAddr, adapter`numOfRegs, adapter`refreshes, adapter`errors, adapter`transactionIsPending,
        adapter.lib`calls, adapter.lib`errno, adapter.regModel, adapter.rawModel, adapter.infoBar, adapter.dest, adapter.dest16
      ensures Valid()
      ensures ui == old(ui).(count := CountRule(old(ui.count), ModbusFunctionCode(currIndex)),
                             countLabel := CountLabel(ModbusFunctionCode(currIndex)))
      ensures adapter.regModel.is16Bit == Is16BitFunction(ModbusFunctionCode(currIndex))
      ensures adapter.functionCode == ModbusFunctionCode(currIndex) && adapter.numOfRegs == ui.count.value
      ensures |adapter.regModel.cells| == ui.count.value
      ensures adapter.regModel.isWrite == EUtils.IsWriteFunction(ModbusFunctionCode(currIndex))
      ensures CountSettingFollows(old(settings.session).(functionCode := currIndex), old(ui.count.value))
      ensures settings.entries == Settings.Saved(old(settings.entries), settings.Current())
    {
      var fc := ModbusFunctionCode(currIndex);
      SelectFunction(currIndex, fc);
      adapter.SetNumOfRegs(ui.count.value);
      ghost var ret, err, traffic := AddItems();
    }

    /**
     * actionScan->setChecked(false): unchecking a checked scan action runs
     * modbusScanCycle(false); an unchecked one is left as it is.
     */
    method UncheckScan()
      requires Valid()
      modifies this`ui, settings`session, settings`entries, adapter`scanRate, adapter`pollRunning, adapter`pollInterval,
        adapter`slave, adapter`functionCode, adapter`startAddr, adapter`numOfRegs, adapter`refreshes, adapter`errors, adapter`transactionIsPending,
        adapter.lib`calls, adapter.lib`errno, adapter.regModel, adapter.rawModel, adapter.infoBar, adapter.dest, adapter.dest16
      decreases 1
      ensures Valid() && !ui.scanChecked && !adapter.pollRunning
      ensures old(ui.scanChecked) ==>
        && ui == old(ui).(scanChecked := false, requestEditable := true,
                          count := CountRule(old(ui.count), ModbusFunctionCode(old(ui.functionIndex))),
                          countLabel := CountLabel(ModbusFunctionCode(old(ui.functionIndex))))
      ensures !old(ui.scanChecked) ==> ui == old(ui) && adapter.regModel.cells == old(adapter.regModel.cells)
    {
      if ui.scanChecked {
        ui := ui.(scanChecked := false);
        ModbusScanCycle(false);
      }
    }

    /**
     * The common part of modbusRequest and modbusScanCycle once the table is
     * known to be usable: the banner is hidden and the adapter takes the
     * request fields, with the base address added to the start address in
     * 32-bit arithmetic.
     */
    method LoadRequest()
      modifies adapter`slave, adapter`functionCode, adapter`startAddr, adapter`numOfRegs, adapter.infoBar
      ensures adapter.infoBar.banner == Models.Hidden
      ensures adapter.slave == ui.slaveId && adapter.functionCode == ModbusFunctionCode(ui.functionIndex)
      ensures adapter.startAddr == Text.Wrap32(ui.startAddress + Text.ToInt(settings.vars.baseAddr))
      ensures adapter.numOfRegs == ui.count.value
    {
      adapter.infoBar.Hide();
      var baseAddr := Text.ToInt(settings.vars.baseAddr);
      adapter.SetSlave(ui.slaveId);
      adapter.SetFunctionCode(ModbusFunctionCode(ui.functionIndex));
      adapter.SetStartAddr(Text.Wrap32(ui.startAddress + baseAddr));
      adapter.SetNumOfRegs(ui.count.value);
    }

    /**
     * modbusScanCycle(true) past the table check: the poll timer starts at
     * the box's interval only when that is at least twice the timeout in
     * milliseconds, otherwise the banner says so and the timer is left as it
     * was; the request fields and the count box are locked.
     */
    method StartScan()
      modifies this`ui, adapter`scanRate, adapter`pollRunning, adapter`pollInterval, adapter.infoBar
      ensures ui == old(ui).(requestEditable := false, count := old(ui.count).(enabled := false))
      ensures ui.interval >= MinScanInterval(settings.vars.timeOut) ==>
        adapter.pollRunning && adapter.pollInterval == ui.interval && adapter.infoBar.banner == old(adapter.infoBar.banner)
      ensures ui.interval < MinScanInterval(settings.vars.timeOut) ==>
        adapter.pollRunning == old(adapter.pollRunning) && adapter.infoBar.banner == Models.Error(ScanRateText)
    {
      if ui.interval < MinScanInterval(settings.vars.timeOut) {
        adapter.infoBar.ShowError(ScanRateText);
      } else {
        adapter.SetScanRate(ui.interval);
        adapter.StartPollTimer();
      }
      ui := ui.(requestEditable := false);
      ui := ui.(count := ui.count.(enabled := false));
    }

    /**
     * modbusScanCycle(false) past the banner: the timer stops, the request
     * fields are unlocked and changedFunctionCode reshapes the count box and
     * rebuilds the table.
     */
    method StopScan()
      requires adapter.Valid() && WellFormed(ui.count) && !adapter.handle.Dangling?
      modifies this`ui, settings`session, settings`entries, adapter`scanRate, adapter`pollRunning, adapter`pollInterval,
        adapter`slave, adapter`functionCode, adapter`startAddr, adapter`numOfRegs, adapter`refreshes, adapter`errors, adapter`transactionIsPending,
        adapter.lib`calls, adapter.lib`errno, adapter.regModel, adapter.rawModel, adapter.infoBar, adapter.dest, adapter.dest16
      ensures Valid() && !adapter.pollRunning
      ensures ui == old(ui).(requestEditable := true,
                          count := CountRule(old(ui.count), ModbusFunctionCode(old(ui.functionIndex))),
                          countLabel := CountLabel(ModbusFunctionCode(old(ui.functionIndex))))
      ensures adapter.functionCode == ModbusFunctionCode(ui.functionIndex) && |adapter.regModel.cells| == ui.count.value
    {
      adapter.StopPollTimer();
      ui := ui.(requestEditable := true);
      ChangedFunctionCode(ui.functionIndex);
    }

    /**
     * modbusScanCycle, the slot of the scan action. Starting a scan with an
     * empty table shows the request error and unchecks the action, whose
     * own slot then runs at once: it hides the banner again, stops the
     * timer and reruns changedFunctionCode. Otherwise the
     * request is loaded and the scan is started or stopped.
     */
    method ModbusScanCycle(value: bool)
      requires adapter.Valid() && WellFormed(ui.count) && !adapter.handle.Dangling?
      requires ui.scanChecked == value
      modifies this`ui, settings`session, settings`entries, adapter`scanRate, adapter`pollRunning, adapter`pollInterval,
        adapter`slave, adapter`functionCode, adapter`startAddr, adapter`numOfRegs, adapter`refreshes, adapter`errors, adapter`transactionIsPending,
        adapter.lib`calls, adapter.lib`errno, adapter.regModel, adapter.rawModel, adapter.infoBar, adapter.dest, adapter.dest16
      decreases if value then 2 else 0
      ensures Valid()
      ensures value && |old(adapter.regModel.cells)| == 0 ==>
        && ui == old(ui).(scanChecked := false, requestEditable := true,
                          count := CountRule(old(ui.count), ModbusFunctionCode(old(ui.functionIndex))),
                          countLabel := CountLabel(ModbusFunctionCode(old(ui.functionIndex))))
        && !adapter.pollRunning
      ensures value && |old(adapter.regModel.cells)| != 0 ==>
        && ui == old(ui).(requestEditable := false, count := old(ui.count).(enabled := false))
        && adapter.slave == ui.slaveId && adapter.functionCode == ModbusFunctionCode(ui.functionIndex)
        && adapter.startAddr == Text.Wrap32(ui.startAddress + Text.ToInt(settings.vars.baseAddr))
        && adapter.numOfRegs == ui.count.value
        && adapter.regModel.cells == old(adapter.regModel.cells)
        && settings.entries == old(settings.entries) && settings.session == old(settings.session)
        && (ui.interval >= MinScanInterval(settings.vars.timeOut) ==>
              adapter.pollRunning && adapter.pollInterval == ui.interval && adapter.infoBar.banner == Models.Hidden)
        && (ui.interval < MinScanInterval(settings.vars.timeOut) ==>
              adapter.pollRunning == old(adapter.pollRunning) && adapter.infoBar.banner == Models.Error(ScanRateText))
      ensures !value ==>
        && ui == old(ui).(requestEditable := true,
                          count := CountRule(old(ui.count), ModbusFunctionCode(old(ui.functionIndex))),
                          countLabel := CountLabel(ModbusFunctionCode(old(ui.functionIndex))))
        && !adapter.pollRunning
        && adapter.functionCode == ModbusFunctionCode(ui.functionIndex) && |adapter.regModel.cells| == ui.count.value
    {
      if value && adapter.regModel.RowCount() == 0 {
        adapter.infoBar.ShowError(RequestFailedText);
        UncheckScan();
        return;
      }
      LoadRequest();
      if value {
        StartScan();
      } else {
        StopScan();
      }
    }

    /**
     * modbusRequest, the read/write action: with an empty table the banner
     * shows the request error and nothing is sent; otherwise the request
     * is loaded (the banner hidden, the base address added) and the adapter
     * runs one transaction, whose outcome on the table, the log, the error
     * count and the banner is the adapter's.
     */
    method ModbusRequest() returns (ghost ret: int, ghost err: int, ghost traffic: seq<Libmodbus.Frame>)
      requires Valid()
      modifies adapter`slave, adapter`functionCode, adapter`startAddr, adapter`numOfRegs, adapter`packets, adapter`refreshes,
        adapter`errors, adapter`transactionIsPending, adapter.lib`calls, adapter.lib`errno, adapter.regModel`cells, adapter.rawModel, adapter.infoBar,
        adapter.dest, adapter.dest16
      ensures Valid()
      ensures |old(adapter.regModel.cells)| == 0 ==>
        && adapter.Snapshot() == old(adapter.Snapshot()).(banner := Models.Error(RequestFailedText))
        && adapter.packets == old(adapter.packets)
        && adapter.slave == old(adapter.slave) && adapter.functionCode == old(adapter.functionCode)
        && adapter.startAddr == old(adapter.startAddr) && adapter.numOfRegs == old(adapter.numOfRegs)
      ensures |old(adapter.regModel.cells)| != 0 ==>
        && adapter.slave == ui.slaveId && adapter.functionCode == ModbusFunctionCode(ui.functionIndex)
        && adapter.startAddr == Text.Wrap32(ui.startAddress + Text.ToInt(settings.vars.baseAddr))
        && adapter.numOfRegs == ui.count.value
        && adapter.packets == old(adapter.packets) + 1
        && (EUtils.IsReadFunction(adapter.functionCode) ==>
              adapter.Snapshot() ==
              Adapter.ReadOutcome(old(adapter.Snapshot()).(banner := Models.Hidden), adapter.handle, adapter.mode, adapter.slave,
                                  adapter.functionCode, adapter.startAddr, adapter.numOfRegs, traffic,
                                  adapter.Received(adapter.functionCode, adapter.numOfRegs), ret, adapter.Reason(err)))
        && (EUtils.IsWriteFunction(adapter.functionCode) ==>
              adapter.Snapshot() ==
              Adapter.WriteOutcome(old(adapter.Snapshot()).(banner := Models.Hidden), adapter.handle, adapter.mode, adapter.slave,
                                   adapter.functionCode, adapter.startAddr, adapter.numOfRegs, traffic, ret, adapter.Reason(err)))
        && (!EUtils.IsSupportedFunction(adapter.functionCode) ==>
              adapter.Snapshot() == old(adapter.Snapshot()).(banner := Models.Hidden))
    {
      ret, err, traffic := -1, 0, [];
      if adapter.regModel.RowCount() == 0 {
        adapter.infoBar.ShowError(RequestFailedText);
        return;
      }
      LoadRequest();
      ret, err, traffic := adapter.Transaction();
    }

    /**
     * The RTU branch of modbusConnect: the slave id is handed to the
     * adapter and the serial line is opened with the port name, baud rate,
     * parity, data bits, stop bits, RTS mode and timeout of the settings.
     */
    method OpenSerial() returns (ghost outcome: Adapter.ConnectOutcome, ghost c: nat)
      requires Base()
      modifies adapter`slave, adapter`handle, adapter`connected, adapter`mode, adapter`timeOut, adapter.lib`live,
        adapter.lib`calls, adapter.lib`next, adapter.lib`errno, adapter.rawModel, adapter.infoBar
      ensures Base()
      ensures adapter.connected <==> outcome == Adapter.Connected
      ensures adapter.handle == Adapter.OutcomeHandle(outcome, c)
      ensures adapter.slave == ui.slaveId && adapter.timeOut == Text.ToInt(settings.vars.timeOut)
      ensures adapter.mode == if outcome == Adapter.NoContext || outcome == Adapter.BadSlave then EUtils.None else EUtils.RTU
      ensures adapter.rawModel.lines == old(adapter.rawModel.lines) + Adapter.RtuLog(settings.rtu.serialPortName, outcome)
      ensures adapter.infoBar.banner == Adapter.RtuBanner(outcome)
      ensures var r := settings.rtu;
        adapter.lib.calls == old(adapter.lib.calls) + Adapter.DisconnectCalls(old(adapter.handle))
        + Adapter.ModbusAdapter.RtuCalls(r.serialPortName, Text.ToInt(r.baud), parityOf(r.parity), Text.ToInt(r.dataBits),
                                         Text.ToInt(r.stopBits), Text.ToInt(r.rts), ui.slaveId,
                                         Text.ToInt(settings.vars.timeOut), outcome, c)
    {
      adapter.SetSlave(ui.slaveId);
      var r := settings.rtu;
      outcome, c := adapter.ConnectRTU(r.serialPortName, Text.ToInt(r.baud), parityOf(r.parity), Text.ToInt(r.dataBits),
                                       Text.ToInt(r.stopBits), Text.ToInt(r.rts), Text.ToInt(settings.vars.timeOut));
    }

    /**
     * The TCP branch of modbusConnect: the connection is opened with the
     * slave address, port and timeout of the settings; a blank address
     * leaves the timeout as it was.
     */
    method OpenNetwork() returns (ghost outcome: Adapter.ConnectOutcome, ghost c: nat)
      requires Base()
      modifies adapter`slave, adapter`handle, adapter`connected, adapter`mode, adapter`timeOut, adapter.lib`live,
        adapter.lib`calls, adapter.lib`next, adapter.lib`errno, adapter.rawModel, adapter.infoBar
      ensures Base()
      ensures adapter.connected <==> outcome == Adapter.Connected
      ensures adapter.handle == Adapter.OutcomeHandle(outcome, c)
      ensures adapter.slave == old(adapter.slave)
      ensures outcome == Adapter.BlankAddress <==> Adapter.StrippedIP(settings.tcp.slaveIP) == ""
      ensures adapter.timeOut == if outcome == Adapter.BlankAddress then old(adapter.timeOut) else Text.ToInt(settings.vars.timeOut)
      ensures adapter.mode == if outcome == Adapter.NoContext || outcome == Adapter.BlankAddress then EUtils.None else EUtils.TCP
      ensures adapter.rawModel.lines ==
        old(adapter.rawModel.lines) + Adapter.TcpLog(settings.tcp.slaveIP, Text.ToInt(settings.tcp.tcpPort), outcome)
      ensures adapter.infoBar.banner == Adapter.TcpBanner(outcome)
      ensures adapter.lib.calls == old(adapter.lib.calls) + Adapter.DisconnectCalls(old(adapter.handle))
        + Adapter.ModbusAdapter.TcpCalls(Adapter.StrippedIP(settings.tcp.slaveIP), Text.ToInt(settings.tcp.tcpPort),
                                         Text.ToInt(settings.vars.timeOut), outcome, c)
    {
      outcome, c := adapter.ConnectTCP(settings.tcp.slaveIP, Text.ToInt(settings.tcp.tcpPort), Text.ToInt(settings.vars.timeOut));
    }

    /** The connect branch of modbusConnect: RTU in mode box entry 0, TCP in any other. */
    method Open() returns (ghost outcome: Adapter.ConnectOutcome)
      requires Base()
      modifies adapter`slave, adapter`handle, adapter`connected, adapter`mode, adapter`timeOut, adapter.lib`live,
        adapter.lib`calls, adapter.lib`next, adapter.lib`errno, adapter.rawModel, adapter.infoBar
      ensures Base()
      ensures adapter.connected <==> outcome == Adapter.Connected
      ensures adapter.connected ==>
        && adapter.mode == (if ui.modeIndex == RtuIndex then EUtils.RTU else EUtils.TCP)
        && adapter.timeOut == Text.ToInt(settings.vars.timeOut)
    {
      ghost var c;
      if ui.modeIndex == RtuIndex {
        outcome, c := OpenSerial();
      } else {
        outcome, c := OpenNetwork();
      }
    }

    /**
     * The connect branch of modbusConnect with its sequel: when the
     * connection fails, actionConnect->setChecked(false) unchecks the
     * checked action, whose slot changedConnect(false) disconnects and
     * resets the counters.
     */
    method Connect() returns (ghost outcome: Adapter.ConnectOutcome)
      requires Base() && ui.connectChecked
      modifies this`ui, settings`session, settings`entries, adapter`handle, adapter`connected, adapter`mode, adapter`timeOut,
        adapter`packets, adapter`scanRate, adapter`pollRunning, adapter`pollInterval, adapter.lib`live, adapter.lib`next,
        adapter`slave, adapter`functionCode, adapter`startAddr, adapter`numOfRegs, adapter`refreshes, adapter`errors, adapter`transactionIsPending,
        adapter.lib`calls, adapter.lib`errno, adapter.regModel, adapter.rawModel, adapter.infoBar, adapter.dest, adapter.dest16
      decreases 5
      ensures Valid()
      ensures adapter.connected <==> outcome == Adapter.Connected
      ensures ui.connectChecked == adapter.connected
      ensures !adapter.connected ==>
        && adapter.handle == Adapter.Null && !ui.scanChecked && !adapter.pollRunning
        && adapter.packets == 0 && adapter.errors == 0 && !ui.online
      ensures adapter.connected ==>
        && ui == old(ui)
        && adapter.mode == (if ui.modeIndex == RtuIndex then EUtils.RTU else EUtils.TCP)
        && adapter.timeOut == Text.ToInt(settings.vars.timeOut)
    {
      outcome := Open();
      if !adapter.IsConnected() {
        ui := ui.(connectChecked := false);
        ghost var reset := ChangedConnect(false);
      }
    }

    /**
     * modbusConnect. Connecting opens the connection; when it fails the
     * connect action is unchecked, so its slot runs changedConnect(false),
     * which disconnects and resets the counters. Disconnecting frees the
     * context and unchecks the scan action, whose slot stops the scan. The
     * window is online, and the connect action checked, exactly while the
     * adapter is connected.
     */
    method ModbusConnect(connect: bool) returns (ghost outcome: Adapter.ConnectOutcome)
      requires Base() && ui.connectChecked == connect
      modifies this`ui, settings`session, settings`entries, adapter`handle, adapter`connected, adapter`mode, adapter`timeOut,
        adapter`packets, adapter`scanRate, adapter`pollRunning, adapter`pollInterval, adapter.lib`live, adapter.lib`next,
        adapter`slave, adapter`functionCode, adapter`startAddr, adapter`numOfRegs, adapter`refreshes, adapter`errors, adapter`transactionIsPending,
        adapter.lib`calls, adapter.lib`errno, adapter.regModel, adapter.rawModel, adapter.infoBar, adapter.dest, adapter.dest16
      decreases if connect then 6 else 3
      ensures Valid()
      ensures ui.connectChecked == adapter.connected && ui.online == adapter.connected
      ensures !adapter.connected ==> adapter.handle == Adapter.Null && !ui.scanChecked && !adapter.pollRunning
      ensures connect ==> (adapter.connected <==> outcome == Adapter.Connected)
      ensures connect && !adapter.connected ==> adapter.packets == 0 && adapter.errors == 0
      ensures connect && adapter.connected ==>
        && adapter.mode == (if old(ui.modeIndex) == RtuIndex then EUtils.RTU else EUtils.TCP)
        && adapter.timeOut == Text.ToInt(settings.vars.timeOut)
      ensures !connect ==> !adapter.connected && adapter.packets == old(adapter.packets)
    {
      outcome := Adapter.NoContext;
      if connect {
        outcome := Connect();
      } else {
        adapter.DisConnect();
        UncheckScan();
      }
      ui := ui.(online := adapter.IsConnected());
    }

    /**
     * changedConnect, the slot of the connect action: connect or disconnect,
     * then reset the packet and error counters.
     */
    method ChangedConnect(value: bool) returns (ghost outcome: Adapter.ConnectOutcome)
      requires Base() && ui.connectChecked == value
      modifies this`ui, settings`session, settings`entries, adapter`handle, adapter`connected, adapter`mode, adapter`timeOut,
        adapter`packets, adapter`scanRate, adapter`pollRunning, adapter`pollInterval, adapter.lib`live, adapter.lib`next,
        adapter`slave, adapter`functionCode, adapter`startAddr, adapter`numOfRegs, adapter`refreshes, adapter`errors, adapter`transactionIsPending,
        adapter.lib`calls, adapter.lib`errno, adapter.regModel, adapter.rawModel, adapter.infoBar, adapter.dest, adapter.dest16
      decreases if value then 7 else 4
      ensures Valid()
      ensures adapter.packets == 0 && adapter.errors == 0
      ensures ui.connectChecked == adapter.connected && ui.online == adapter.connected
      ensures !adapter.connected ==> adapter.handle == Adapter.Null && !ui.scanChecked && !adapter.pollRunning
      ensures value ==> (adapter.connected <==> outcome == Adapter.Connected)
      ensures value && adapter.connected ==>
        && adapter.mode == (if old(ui.modeIndex) == RtuIndex then EUtils.RTU else EUtils.TCP)
        && adapter.timeOut == Text.ToInt(settings.vars.timeOut)
      ensures !value ==> !adapter.connected
    {
      outcome := ModbusConnect(value);
      adapter.ResetCounters();
    }
  }
}
