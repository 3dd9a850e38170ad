/**
 * The Memory section (`src/components/memory.rs`): a RAM row and a Swap row,
 * each shown or not by a flag, and one utilization bar under every line.
 */
module MemoryComponent {
  import opened Wrappers
  import opened Tools
  import opened Tables
  import opened Telemetry
  import opened Console

  /** `[memory]`: which rows to show, bar colours and the warning threshold. */
  datatype Config = Config(showRam: bool, showSwap: bool, defaultColor: string, warningColor: string,
                           warningThreshold: real)

  /** The section with every field left at its default. */
  const Defaults := Config(true, true, "green", "red", 0.8)

  /** `!show_ram && show_swap`: `table` then returns a table it has not touched. */
  predicate Quirk(cfg: Config)
  {
    !cfg.showRam && cfg.showSwap
  }

  /** `"{used} / {total} ({percent:.1}%)"`, right-aligned. */
  function UsageCell(used: nat, total: nat): Cell
    requires used <= total
  {
    Cell(ByteStr(used) + [Str(" / ")] + ByteStr(total) + [Str(" ("), Percent(Ratio(used, total)), Str("%)")], Right, None)
  }

  function RamRow(m: MemoryInfo): Row
    requires MemoryConsistent(m)
  {
    [NewCell([Str("RAM:")]), UsageCell(m.usedMemory, m.totalMemory)]
  }

  function SwapRow(m: MemoryInfo): Row
    requires MemoryConsistent(m)
  {
    [NewCell([Str("Swap:")]), UsageCell(m.usedSwap, m.totalSwap)]
  }

  function Rows(cfg: Config, m: MemoryInfo): seq<Row>
    requires MemoryConsistent(m)
  {
    (if cfg.showRam then [RamRow(m)] else []) + (if cfg.showSwap then [SwapRow(m)] else [])
  }

  /** The table `table()` returns. */
  function TableOf(cfg: Config, m: MemoryInfo): TableView
    requires MemoryConsistent(m)
  {
    if Quirk(cfg) then EmptyTable
    else
      var rows := Rows(cfg, m);
      TableView(NothingPreset, DynamicFullWidth, None, rows, seq(if rows == [] then 0 else 2, _ => DefaultPadding))
  }

  /**
   * Which rows the table holds: none in the quirk case; otherwise a "RAM:" row
   * exactly when RAM is shown, then a "Swap:" row exactly when swap is shown,
   * each a title cell followed by one value cell.
   */
  lemma TableRowsByFlags(cfg: Config, m: MemoryInfo)
    requires MemoryConsistent(m)
    ensures Quirk(cfg) ==> TableOf(cfg, m).rows == []
    ensures !Quirk(cfg) ==>
              var rows := TableOf(cfg, m).rows;
              && |rows| == (if cfg.showRam then 1 else 0) + (if cfg.showSwap then 1 else 0)
              && (forall k :: 0 <= k < |rows| ==> |rows[k]| == 2)
              && (cfg.showRam <==> |rows| > 0 && rows[0][0] == NewCell([Str("RAM:")]))
              && (cfg.showSwap <==> |rows| > 0 && rows[|rows| - 1][0] == NewCell([Str("Swap:")]))
  {
  }

  method BuildTable(cfg: Config, m: MemoryInfo) returns (table: Table)
    requires MemoryConsistent(m)
    ensures fresh(table)
    ensures table.View() == TableOf(cfg, m)
  {
    table := new Table();
    if !cfg.showRam && cfg.showSwap {
      return;
    }
    table.LoadPreset(NothingPreset);
    table.SetContentArrangement(DynamicFullWidth);
    if cfg.showRam {
      table.AddRow(RamRow(m));
    }
    if cfg.showSwap {
      table.AddRow(SwapRow(m));
    }
  }

  /**
   * `get_per()`: the fractions for the bars, one per flag that is on, RAM before
   * Swap; swap alone gives `[swap]` even though the table then has no rows.
   */
  function Fractions(cfg: Config, m: MemoryInfo): (r: seq<Float>)
    requires MemoryConsistent(m)
    ensures |r| == (if cfg.showRam then 1 else 0) + (if cfg.showSwap then 1 else 0)
    ensures cfg.showRam ==> r[0] == Ratio(m.usedMemory, m.totalMemory)
    ensures cfg.showSwap ==> r[|r| - 1] == Ratio(m.usedSwap, m.totalSwap)
    ensures forall k :: 0 <= k < |r| ==> r[k].Num? ==> 0.0 <= r[k].v <= 1.0
  {
    var mem := Ratio(m.usedMemory, m.totalMemory);
    var swap := Ratio(m.usedSwap, m.totalSwap);
    match (cfg.showRam, cfg.showSwap)
    case (true, true) => [mem, swap]
    case (_, true) => [swap]
    case (true, _) => [mem]
    case (_, _) => []
  }

  /** The table has one line per fraction except in the quirk case, where it has none and there is one fraction. */
  lemma RowsMatchFractions(cfg: Config, m: MemoryInfo)
    requires MemoryConsistent(m)
    ensures LineCount(TableOf(cfg, m)) == |Fractions(cfg, m)| <==> !Quirk(cfg)
  {
  }

  /** `width()`: no preferred width. */
  function Width(): nat
  {
    0
  }

  /** The table as `print` lays it out: `set_width(width as u16)`. */
  function PrintTable(cfg: Config, m: MemoryInfo, width: nat): TableView
    requires MemoryConsistent(m)
  {
    TableOf(cfg, m).(width := Some(width % 0x1_0000))
  }

  function BarFor(cfg: Config, barWidth: nat, per: Float, resolve: ColorResolver): Result<StyledText, BarFault>
  {
    ProcessStr(barWidth, per, cfg.defaultColor, cfg.warningColor, cfg.warningThreshold, resolve)
  }

  /** `process_str` with this section's colours and threshold, at the width `barWidth`. */
  function Drawer(cfg: Config, barWidth: nat, resolve: ColorResolver): BarDrawer
  {
    p => BarFor(cfg, barWidth, p, resolve)
  }

  /** One turn of the print loop: line `index`, then the bar for `per[index]`. */
  function LineStep(view: TableView, per: seq<Float>, bar: BarDrawer, index: nat): Printed
    requires index < |per|
  {
    match bar(per[index])
    case Ok(b) => Printed([TableLine(view, index), Indented(b)], None)
    case Err(e) => Printed([TableLine(view, index)], Some(BarPanic(e)))
  }

  /** Every turn of the print loop, one per fraction. */
  function Steps(view: TableView, per: seq<Float>, bar: BarDrawer): seq<Printed>
  {
    seq(|per|, i requires 0 <= i < |per| => LineStep(view, per, bar, i))
  }

  /** The first `n` turns of the print loop, one after another; a panicking bar ends it. */
  function Lines(view: TableView, per: seq<Float>, bar: BarDrawer, n: nat): Printed
    requires n <= |per|
  {
    Chain(Steps(view, per, bar), n)
  }

  /**
   * `print(width)`: the widest line is taken first, which panics when the table
   * has no lines; then the title, each line with its bar, and a blank line.
   */
  function Section(cfg: Config, width: nat, m: MemoryInfo, lw: LineWidth, resolve: ColorResolver): Printed
    requires MemoryConsistent(m)
  {
    var view := PrintTable(cfg, m, width);
    match MaxLineWidth(view, lw)
    case None => Printed([], Some(EmptyMaximum))
    case Some(barWidth) =>
      var per := Fractions(cfg, m);
      Then(Then(Printed([Say("Memory:")], None), Lines(view, per, Drawer(cfg, barWidth, resolve), LineCount(view))),
           Printed([Blank], None))
  }

  /** The print loop over the table's lines; a panicking bar ends it. */
  method PrintLines(cfg: Config, view: TableView, per: seq<Float>, barWidth: nat, resolve: ColorResolver)
    returns (out: Printed)
    requires LineCount(view) <= |per|
    ensures out == Lines(view, per, Drawer(cfg, barWidth, resolve), LineCount(view))
  {
    ghost var drawer := Drawer(cfg, barWidth, resolve);
    var lines := [];
    for index := 0 to LineCount(view)
      invariant Lines(view, per, drawer, index) == Printed(lines, None)
    {
      assert Steps(view, per, drawer)[index] == LineStep(view, per, drawer, index);
      assert Lines(view, per, drawer, index + 1) == Then(Printed(lines, None), LineStep(view, per, drawer, index));
      lines := lines + [TableLine(view, index)];
      var bar := BarFor(cfg, barWidth, per[index], resolve);
      assert drawer(per[index]) == bar;
      if bar.Err? {
        ChainAfterFault(Steps(view, per, drawer), index + 1, LineCount(view));
        return Printed(lines, Some(BarPanic(bar.error)));
      }
      lines := lines + [Indented(bar.value)];
    }
    out := Printed(lines, None);
  }

  method Print(cfg: Config, width: nat, m: MemoryInfo, lw: LineWidth, resolve: ColorResolver)
    returns (out: Printed)
    requires MemoryConsistent(m)
    ensures out == Section(cfg, width, m, lw, resolve)
  {
    var table := BuildTable(cfg, m);
    table.SetWidth(width % 0x1_0000);
    var view := table.View();
    assert view == PrintTable(cfg, m, width);
    var maxWidth := MaxLineWidth(view, lw);
    if maxWidth.None? {
      return Printed([], Some(EmptyMaximum));
    }
    var per := Fractions(cfg, m);
    var body := PrintLines(cfg, view, per, maxWidth.value, resolve);
    out := Then(Then(Printed([Say("Memory:")], None), body), Printed([Blank], None));
  }

  /**
   * When no bar panics, every line `i` is followed by exactly one bar, the one
   * drawn for `per[i]`.
   */
  lemma {:induction false} LinesShape(view: TableView, per: seq<Float>, bar: BarDrawer, n: nat)
    requires n <= |per|
    requires forall k :: 0 <= k < n ==> bar(per[k]).Ok?
    ensures Lines(view, per, bar, n).fault.None?
    ensures |Lines(view, per, bar, n).lines| == 2 * n
    ensures forall i :: 0 <= i < n ==>
              && Lines(view, per, bar, n).lines[2 * i] == TableLine(view, i)
              && Lines(view, per, bar, n).lines[2 * i + 1] == Indented(bar(per[i]).value)
  {
    if n > 0 {
      LinesShape(view, per, bar, n - 1);
      var prev := Lines(view, per, bar, n - 1).lines;
      var cur := Lines(view, per, bar, n).lines;
      assert Steps(view, per, bar)[n - 1] == LineStep(view, per, bar, n - 1);
      assert cur == prev + [TableLine(view, n - 1), Indented(bar(per[n - 1]).value)];
      forall i | 0 <= i < n - 1
        ensures cur[2 * i] == TableLine(view, i) && cur[2 * i + 1] == Indented(bar(per[i]).value)
      {
        assert cur[2 * i] == prev[2 * i] && cur[2 * i + 1] == prev[2 * i + 1];
      }
    }
  }

  /**
   * Under one line per row, the section panics at `max().unwrap()` before
   * printing anything exactly when RAM is hidden: the quirk case leaves the table
   * empty, and with both flags off there is nothing to show either.
   */
  lemma HiddenRamPanics(cfg: Config, width: nat, m: MemoryInfo, lw: LineWidth, resolve: ColorResolver)
    requires MemoryConsistent(m)
    ensures Section(cfg, width, m, lw, resolve) == Printed([], Some(EmptyMaximum)) <==> !cfg.showRam
  {
    var view := PrintTable(cfg, m, width);
    if cfg.showRam {
      assert LineCount(view) > 0;
      var s := Section(cfg, width, m, lw, resolve);
      assert s.lines[0] == Say("Memory:");
    }
  }

  /**
   * With RAM shown, colours that parse and a laid-out table at least two columns
   * wide, the section never panics: the title, then the loop's line and bar per
   * enabled flag (`LinesShape`), every bar drawn at the laid-out table's own
   * widest line rather than at the shared width, then a blank line.
   */
  lemma SectionShape(cfg: Config, width: nat, m: MemoryInfo, lw: LineWidth, resolve: ColorResolver)
    requires MemoryConsistent(m) && cfg.showRam
    requires resolve(cfg.defaultColor).Some? && resolve(cfg.warningColor).Some?
    requires MaxLineWidth(PrintTable(cfg, m, width), lw).value >= 2
    ensures Section(cfg, width, m, lw, resolve).fault.None?
    ensures |Section(cfg, width, m, lw, resolve).lines| == 2 * |Fractions(cfg, m)| + 2
    ensures var view := PrintTable(cfg, m, width);
            var drawer := Drawer(cfg, MaxLineWidth(view, lw).value, resolve);
            Section(cfg, width, m, lw, resolve).lines
            == [Say("Memory:")] + Lines(view, Fractions(cfg, m), drawer, LineCount(view)).lines + [Blank]
  {
    var view := PrintTable(cfg, m, width);
    var barWidth := MaxLineWidth(view, lw).value;
    var per := Fractions(cfg, m);
    var drawer := Drawer(cfg, barWidth, resolve);
    forall k | 0 <= k < |per|
      ensures drawer(per[k]).Ok?
    {
      ProcessStrSucceeds(barWidth, per[k], cfg.defaultColor, cfg.warningColor, cfg.warningThreshold, resolve);
    }
    LinesShape(view, per, drawer, LineCount(view));
    var body := Lines(view, per, drawer, LineCount(view));
    assert Section(cfg, width, m, lw, resolve) == Then(Then(Printed([Say("Memory:")], None), body), Printed([Blank], None));
  }

  /** Left at its defaults, the section shows a RAM row and then a Swap row, with one fraction each. */
  lemma DefaultsShowBoth(m: MemoryInfo)
    requires MemoryConsistent(m)
    ensures !Quirk(Defaults)
    ensures TableOf(Defaults, m).rows == [RamRow(m), SwapRow(m)]
    ensures Fractions(Defaults, m) == [Ratio(m.usedMemory, m.totalMemory), Ratio(m.usedSwap, m.totalSwap)]
  {
  }
}
