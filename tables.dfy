/**
 * The part of the `comfy_table` library the dashboard relies on: a table that is
 * built up row by row and configured in place, and the lines it lays out.  The
 * layout itself is the library's: how wide each line comes out is a parameter
 * (`LineWidth`), and each row is taken to occupy exactly one line.
 */
module Tables {
  import opened Wrappers
  import opened Tools
  import Iter

  /** `ASCII_FULL`, the preset `Table::new()` starts with, and `NOTHING`. */
  datatype Preset = AsciiFull | NothingPreset
  datatype Arrangement = Disabled | Dynamic | DynamicFullWidth
  datatype Alignment = Left | Center | Right

  /** A cell: its text, its alignment and, when set, its own delimiter character. */
  datatype Cell = Cell(content: StyledText, alignment: Alignment, delimiter: Option<char>)

  /** `Cell::new(content)`. */
  function NewCell(content: StyledText): Cell
  {
    Cell(content, Left, None)
  }

  type Row = seq<Cell>

  /** A column's padding, in spaces to the left and to the right. */
  datatype Padding = Padding(left: nat, right: nat)

  const DefaultPadding := Padding(1, 1)

  type U16 = x: nat | x < 0x1_0000

  /** The value of a table: its settings, its rows, and the padding of each of its columns. */
  datatype TableView = TableView(preset: Preset, arrangement: Arrangement, width: Option<U16>,
                                 rows: seq<Row>, columns: seq<Padding>)

  /** `Table::new()`. */
  const EmptyTable := TableView(AsciiFull, Disabled, None, [], [])

  /**
   * `add_row`: the row goes last, and the table gains a column with default
   * padding for each cell beyond its current column count.
   */
  function WithRow(t: TableView, row: Row): TableView
  {
    var extra := if |row| <= |t.columns| then 0 else |row| - |t.columns|;
    t.(rows := t.rows + [row], columns := t.columns + seq(extra, _ => DefaultPadding))
  }

  class Table {
    var preset: Preset
    var arrangement: Arrangement
    var width: Option<U16>
    var rows: seq<Row>
    var columns: seq<Padding>

    function View(): TableView
      reads this
    {
      TableView(preset, arrangement, width, rows, columns)
    }

    constructor ()
      ensures View() == EmptyTable
    {
      preset, arrangement, width, rows, columns := AsciiFull, Disabled, None, [], [];
    }

    method LoadPreset(p: Preset)
      modifies this
      ensures View() == old(View()).(preset := p)
    {
      preset := p;
    }

    method SetContentArrangement(a: Arrangement)
      modifies this
      ensures View() == old(View()).(arrangement := a)
    {
      arrangement := a;
    }

    method SetWidth(w: U16)
      modifies this
      ensures View() == old(View()).(width := Some(w))
    {
      width := Some(w);
    }

    method AddRow(row: Row)
      modifies this
      ensures View() == WithRow(old(View()), row)
    {
      var extra := if |row| <= |columns| then 0 else |row| - |columns|;
      rows := rows + [row];
      columns := columns + seq(extra, _ => DefaultPadding);
    }

    /** `set_padding` on the column at `index`, reached through `column_iter_mut`. */
    method SetColumnPadding(index: nat, p: Padding)
      requires index < |columns|
      modifies this
      ensures View() == old(View()).(columns := old(columns)[index := p])
    {
      columns := columns[index := p];
    }
  }

  /**
   * The display width (as `unicode_width` measures it) of line `index` of table
   * `t` laid out by the library under its settings.
   */
  type LineWidth = (TableView, nat) -> nat

  /** `lines().count()`, under the assumption that every row is laid out on one line. */
  function LineCount(t: TableView): nat
  {
    |t.rows|
  }

  /** `lines().map(|s| s.width()).max()`. */
  function MaxLineWidth(t: TableView, lw: LineWidth): (r: Option<nat>)
    ensures r.None? <==> LineCount(t) == 0
    ensures r.Some? ==> forall i :: 0 <= i < LineCount(t) ==> lw(t, i) <= r.value
    ensures r.Some? ==> exists i :: 0 <= i < LineCount(t) && lw(t, i) == r.value
  {
    var widths := seq(LineCount(t), (i: nat) => lw(t, i));
    var m := Iter.Max(widths);
    assert m.Some? ==> forall i :: 0 <= i < LineCount(t) ==> lw(t, i) == widths[i];
    m
  }
}
