/**
 * The collaborators the adapter writes into: the register table model
 * (RegistersModel), the raw bus log (RawDataModel) and the main window's
 * information bar. Their own sources are not part of this model; each is
 * reduced to the state the adapter's calls change, with the meaning the
 * program relies on: `addItems` makes a fresh table of invalid zero cells,
 * `setValue` stores a valid value in an existing row, `setNoValidValues`
 * marks every cell invalid and keeps its value, `value` reads a row (0 when
 * there is none), and `addLine` appends one line to the log.
 */
module Models {
  import EUtils

  /** One row of the register table. */
  datatype Cell = Cell(value: int, valid: bool)

  /** When a log line was stamped: a system event, or a frame sent or received in a mode. */
  datatype Stamp = SysStamp | TxStamp(mode: EUtils.Mode) | RxStamp(mode: EUtils.Mode)

  /** A log line: a time stamp, " - ", then the text. */
  datatype LogLine = LogLine(stamp: Stamp, text: string)

  /** The information bar: hidden, or showing an error message. */
  datatype Banner = Hidden | Error(message: string)

  /** The table `addItems(start, n, ...)` makes: n invalid zero cells. */
  function FreshCells(n: int): (cells: seq<Cell>)
    ensures |cells| == if n < 0 then 0 else n
    ensures forall i :: 0 <= i < |cells| ==> cells[i] == Cell(0, false)
  {
    if n <= 0 then [] else FreshCells(n - 1) + [Cell(0, false)]
  }

  /** `cells` with row i replaced by a valid data[i] for every row data reaches. */
  function Stored(cells: seq<Cell>, data: seq<int>): (r: seq<Cell>)
    ensures |r| == |cells|
    ensures forall i :: 0 <= i < |r| ==> r[i] == if i < |data| then Cell(data[i], true) else cells[i]
  {
    seq(|cells|, i requires 0 <= i < |cells| => if i < |data| then Cell(data[i], true) else cells[i])
  }

  /** `cells` with every cell marked invalid and every value kept. */
  function Invalidated(cells: seq<Cell>): (r: seq<Cell>)
    ensures |r| == |cells|
    ensures forall i :: 0 <= i < |r| ==> r[i] == Cell(cells[i].value, false)
  {
    seq(|cells|, i requires 0 <= i < |cells| => Cell(cells[i].value, false))
  }

  /** The value the table reports for row i. */
  function ValueAt(cells: seq<Cell>, i: int): int
  {
    if 0 <= i < |cells| then cells[i].value else 0
  }

  class RegistersModel {
    var cells: seq<Cell>
    var startAddr: int
    var isWrite: bool
    var is16Bit: bool

    constructor()
      ensures cells == [] && !isWrite && !is16Bit
    {
      cells := [];
      startAddr := 0;
      isWrite := false;
      is16Bit := false;
    }

    function RowCount(): nat
      reads this
    {
      |cells|
    }

    function Value(i: int): int
      reads this
    {
      ValueAt(cells, i)
    }

    method AddItems(start: int, n: int, valueIsEditable: bool)
      modifies this`cells, this`startAddr, this`isWrite
      ensures cells == FreshCells(n) && startAddr == start && isWrite == valueIsEditable
    {
      cells := FreshCells(n);
      startAddr := start;
      isWrite := valueIsEditable;
    }

    method SetValue(i: int, v: int)
      modifies this`cells
      ensures cells == if 0 <= i < |old(cells)| then old(cells)[i := Cell(v, true)] else old(cells)
    {
      if 0 <= i < |cells| {
        cells := cells[i := Cell(v, true)];
      }
    }

    method SetNoValidValues()
      modifies this`cells
      ensures cells == Invalidated(old(cells))
    {
      cells := Invalidated(cells);
    }

    method SetIs16Bit(b: bool)
      modifies this`is16Bit
      ensures is16Bit == b
    {
      is16Bit := b;
    }
  }

  class RawDataModel {
    var lines: seq<LogLine>

    constructor()
      ensures lines == []
    {
      lines := [];
    }

    method AddLine(line: LogLine)
      modifies this
      ensures lines == old(lines) + [line]
    {
      lines := lines + [line];
    }
  }

  class InfoBar {
    var banner: Banner

    constructor()
      ensures banner == Hidden
    {
      banner := Hidden;
    }

    method ShowError(message: string)
      modifies this
      ensures banner == Error(message)
    {
      banner := Error(message);
    }

    method Hide()
      modifies this
      ensures banner == Hidden
    {
      banner := Hidden;
    }
  }
}
