/**
 * The Disk section (`src/components/disk.rs`): the configured mount points that
 * are present in the disk list, one table row each under a header, and one
 * utilization bar under every row but the header.
 */
module DiskComponent {
  import opened Wrappers
  import opened Tools
  import opened Tables
  import opened Telemetry
  import opened Console

  const DefaultColor := "green"
  const WarningColor := "red"
  const DefaultThreshold := 0.8

  /** `[disk]`: bar colours, the warning threshold, and a display name per mount point. */
  datatype Config = Config(defaultColor: string, warningColor: string, warningThreshold: real,
                           mounts: map<string, string>)

  /** The section with every field left at its default. */
  const Defaults := Config(DefaultColor, WarningColor, DefaultThreshold, map[])

  /** `DiskItem`: the texts of one row and the fraction of the disk in use. */
  datatype Item = Item(name: string, fs: string, kind: string, mount: string,
                       used: StyledText, total: StyledText, avail: StyledText, per: Float)

  function MountOf(d: DiskInfo): string
  {
    TextOr(d.mountPoint)
  }

  /**
   * `DiskItem::new(name, disk)`.  Its fraction `1 - avail / total` is the share of
   * the disk in use, NaN for a disk of size 0.
   */
  function NewItem(name: string, d: DiskInfo): (item: Item)
    requires d.availableSpace <= d.totalSpace
    ensures item.per == Ratio(d.totalSpace - d.availableSpace, d.totalSpace)
    ensures item.per.Num? ==> 0.0 <= item.per.v <= 1.0
  {
    var per := OneMinus(Ratio(d.availableSpace, d.totalSpace));
    assert d.totalSpace > 0 ==> per.v == (d.totalSpace - d.availableSpace) as real / d.totalSpace as real by {
      if d.totalSpace > 0 {
        var t, a := d.totalSpace as real, d.availableSpace as real;
        calc {
          (t - a) / t;
          t / t - a / t;
          1.0 - a / t;
        }
      }
    }
    Item(name, TextOr(d.fileSystem), d.kind, MountOf(d), ByteStr(d.totalSpace - d.availableSpace),
         ByteStr(d.totalSpace), ByteStr(d.availableSpace), per)
  }

  const Titles: seq<string> := ["name", "fs", "type", "mount", "used", "total", "avail"]

  /** The item's text shown in the column headed `title`. */
  function Field(item: Item, title: string): StyledText
  {
    if title == "name" then [Str(item.name)]
    else if title == "fs" then [Str(item.fs)]
    else if title == "type" then [Str(item.kind)]
    else if title == "mount" then [Str(item.mount)]
    else if title == "used" then item.used
    else if title == "total" then item.total
    else item.avail
  }

  /** `DiskItem::row`, each text made a cell by `add_row`. */
  function ItemRow(item: Item): Row
  {
    [NewCell([Str(item.name)]), NewCell([Str(item.fs)]), NewCell([Str(item.kind)]), NewCell([Str(item.mount)]),
     NewCell(item.used), NewCell(item.total), NewCell(item.avail)]
  }

  /** Every row has one cell per title, and the cell under each title holds that field. */
  lemma RowMatchesHeader(item: Item)
    ensures |ItemRow(item)| == |Titles| == 7
    ensures forall k :: 0 <= k < |Titles| ==> ItemRow(item)[k] == NewCell(Field(item, Titles[k]))
  {
  }

  /** A centred header cell with a space as its delimiter. */
  function HeaderCell(title: string): Cell
  {
    Cell([Str(title)], Center, Some(' '))
  }

  function HeaderRow(): Row
  {
    seq(|Titles|, k requires 0 <= k < |Titles| => HeaderCell(Titles[k]))
  }

  function ItemRows(items: seq<Item>): seq<Row>
  {
    seq(|items|, k requires 0 <= k < |items| => ItemRow(items[k]))
  }

  /** The table `table(items)` builds: the header, then one row per item, in order. */
  function TableOf(items: seq<Item>): TableView
  {
    TableView(NothingPreset, Dynamic, None, [HeaderRow()] + ItemRows(items), seq(|Titles|, _ => DefaultPadding))
  }

  /** The items `get_items` produces from the disk list, by the list's last element. */
  function Selected(mounts: map<string, string>, disks: seq<DiskInfo>): seq<Item>
    requires DisksConsistent(disks)
  {
    if disks == [] then []
    else
      var d := disks[|disks| - 1];
      var rest := Selected(mounts, disks[..|disks| - 1]);
      if MountOf(d) in mounts then rest + [NewItem(mounts[MountOf(d)], d)] else rest
  }

  /** The positions of the disks whose mount point is a key of `mounts`. */
  function Kept(mounts: map<string, string>, disks: seq<DiskInfo>): seq<nat>
  {
    if disks == [] then []
    else
      var rest := Kept(mounts, disks[..|disks| - 1]);
      if MountOf(disks[|disks| - 1]) in mounts then rest + [|disks| - 1] else rest
  }

  /**
   * `get_items` keeps exactly the disks whose mount point is a key of `mounts`,
   * in the order of the disk list, and names each by the value its mount point
   * maps to; every other disk is dropped.
   */
  lemma {:induction false} SelectedExactly(mounts: map<string, string>, disks: seq<DiskInfo>)
    requires DisksConsistent(disks)
    ensures |Selected(mounts, disks)| == |Kept(mounts, disks)|
    ensures forall k :: 0 <= k < |Kept(mounts, disks)| ==> Kept(mounts, disks)[k] < |disks|
    ensures forall k, l :: 0 <= k < l < |Kept(mounts, disks)| ==> Kept(mounts, disks)[k] < Kept(mounts, disks)[l]
    ensures forall j :: 0 <= j < |disks| ==> (j in Kept(mounts, disks) <==> MountOf(disks[j]) in mounts)
    ensures forall k :: 0 <= k < |Kept(mounts, disks)| ==>
              var d := disks[Kept(mounts, disks)[k]];
              MountOf(d) in mounts && Selected(mounts, disks)[k] == NewItem(mounts[MountOf(d)], d)
  {
    if disks != [] {
      var n := |disks| - 1;
      var prefix := disks[..n];
      assert forall j :: 0 <= j < n ==> prefix[j] == disks[j];
      SelectedExactly(mounts, prefix);
      var d := disks[n];
      if MountOf(d) in mounts {
        assert Kept(mounts, disks) == Kept(mounts, prefix) + [n];
        assert Selected(mounts, disks) == Selected(mounts, prefix) + [NewItem(mounts[MountOf(d)], d)];
      } else {
        assert Kept(mounts, disks) == Kept(mounts, prefix);
        assert Selected(mounts, disks) == Selected(mounts, prefix);
      }
    }
  }

  method GetItems(mounts: map<string, string>, disks: seq<DiskInfo>) returns (items: seq<Item>)
    requires DisksConsistent(disks)
    ensures items == Selected(mounts, disks)
  {
    items := [];
    for i := 0 to |disks|
      invariant items == Selected(mounts, disks[..i])
    {
      assert disks[..i + 1][..i] == disks[..i];
      var disk := disks[i];
      var mount := MountOf(disk);
      if mount !in mounts {
        continue;
      }
      var name := mounts[mount];
      items := items + [NewItem(name, disk)];
    }
    assert disks[..|disks|] == disks;
  }

  method BuildTable(items: seq<Item>) returns (table: Table)
    ensures fresh(table)
    ensures table.View() == TableOf(items)
  {
    table := new Table();
    table.LoadPreset(NothingPreset);
    table.SetContentArrangement(Dynamic);
    var header: Row := [];
    for k := 0 to |Titles|
      invariant header == HeaderRow()[..k]
    {
      header := header + [HeaderCell(Titles[k])];
    }
    assert header == HeaderRow();
    table.AddRow(header);
    assert table.columns == seq(|Titles|, _ => DefaultPadding);
    assert items[..0] == [];
    for k := 0 to |items|
      invariant table.View() == TableView(NothingPreset, Dynamic, None, [HeaderRow()] + ItemRows(items[..k]),
                                          seq(|Titles|, _ => DefaultPadding))
    {
      table.AddRow(ItemRow(items[k]));
      assert ItemRows(items[..k + 1]) == ItemRows(items[..k]) + [ItemRow(items[k])];
    }
    assert items[..|items|] == items;
  }

  /** The table `width()` measures. */
  function MeasuredTable(cfg: Config, disks: seq<DiskInfo>): TableView
    requires DisksConsistent(disks)
  {
    TableOf(Selected(cfg.mounts, disks))
  }

  /** `width()`: the widest line of the table, measured before any section is printed. */
  function MeasuredWidth(cfg: Config, disks: seq<DiskInfo>, lw: LineWidth): (w: nat)
    requires DisksConsistent(disks)
    ensures forall i :: 0 <= i < LineCount(MeasuredTable(cfg, disks)) ==> lw(MeasuredTable(cfg, disks), i) <= w
    ensures exists i :: 0 <= i < LineCount(MeasuredTable(cfg, disks)) && lw(MeasuredTable(cfg, disks), i) == w
  {
    MaxLineWidth(MeasuredTable(cfg, disks), lw).value
  }

  method Width(cfg: Config, disks: seq<DiskInfo>, lw: LineWidth) returns (w: nat)
    requires DisksConsistent(disks)
    ensures w == MeasuredWidth(cfg, disks, lw)
  {
    var items := GetItems(cfg.mounts, disks);
    var table := BuildTable(items);
    w := MaxLineWidth(table.View(), lw).value;
  }

  /** The table as `print` lays it out: `set_width(width as u16)`, then full-width arrangement. */
  function PrintTable(items: seq<Item>, width: nat): TableView
  {
    TableOf(items).(width := Some(width % 0x1_0000), arrangement := DynamicFullWidth)
  }

  function BarFor(cfg: Config, barWidth: nat, per: Float, resolve: ColorResolver): Result<StyledText, BarFault>
  {
    ProcessStr(barWidth, per, cfg.defaultColor, cfg.warningColor, cfg.warningThreshold, resolve)
  }

  /** `process_str` with this section's colours and threshold, at the width `barWidth`. */
  function Drawer(cfg: Config, barWidth: nat, resolve: ColorResolver): BarDrawer
  {
    p => BarFor(cfg, barWidth, p, resolve)
  }

  /** One turn of the print loop: line `index`, then, below every line but the header, a bar. */
  function LineStep(view: TableView, items: seq<Item>, bar: BarDrawer, index: nat): Printed
    requires index <= |items|
  {
    if index == 0 then Printed([TableLine(view, 0)], None)
    else
      match bar(items[index - 1].per)
      case Ok(b) => Printed([TableLine(view, index), Indented(b)], None)
      case Err(e) => Printed([TableLine(view, index)], Some(BarPanic(e)))
  }

  /** Every turn of the print loop, one per table line. */
  function Steps(view: TableView, items: seq<Item>, bar: BarDrawer): seq<Printed>
  {
    seq(|items| + 1, i requires 0 <= i <= |items| => LineStep(view, items, bar, i))
  }

  /** The first `n` turns of the print loop, one after another; a panicking bar ends it. */
  function Lines(view: TableView, items: seq<Item>, bar: BarDrawer, n: nat): Printed
    requires n <= |items| + 1
  {
    Chain(Steps(view, items, bar), n)
  }

  /** `print(width)`: nothing at all without mounts; otherwise the title, the lines and bars, a blank line. */
  function Section(cfg: Config, width: nat, disks: seq<DiskInfo>, lw: LineWidth, resolve: ColorResolver): (r: Printed)
    requires DisksConsistent(disks)
    ensures r == Nothing <==> |cfg.mounts| == 0
  {
    if |cfg.mounts| == 0 then Nothing
    else
      var items := Selected(cfg.mounts, disks);
      var view := PrintTable(items, width);
      var barWidth := MaxLineWidth(view, lw).value;
      var r := Then(Then(Printed([Say("Disk:")], None), Lines(view, items, Drawer(cfg, barWidth, resolve), |items| + 1)),
                    Printed([Blank], None));
      assert r.lines[0] == Say("Disk:");
      r
  }

  /** The print loop over the table's lines; a panicking bar ends it. */
  method PrintLines(cfg: Config, view: TableView, items: seq<Item>, barWidth: nat, resolve: ColorResolver)
    returns (out: Printed)
    requires LineCount(view) == |items| + 1
    ensures out == Lines(view, items, Drawer(cfg, barWidth, resolve), |items| + 1)
  {
    ghost var drawer := Drawer(cfg, barWidth, resolve);
    var lines := [];
    for index := 0 to LineCount(view)
      invariant Lines(view, items, drawer, index) == Printed(lines, None)
    {
      assert Steps(view, items, drawer)[index] == LineStep(view, items, drawer, index);
      assert Lines(view, items, drawer, index + 1) == Then(Printed(lines, None), LineStep(view, items, drawer, index));
      lines := lines + [TableLine(view, index)];
      if index > 0 {
        var bar := BarFor(cfg, barWidth, items[index - 1].per, resolve);
        assert drawer(items[index - 1].per) == bar;
        if bar.Err? {
          ChainAfterFault(Steps(view, items, drawer), index + 1, |items| + 1);
          return Printed(lines, Some(BarPanic(bar.error)));
        }
        lines := lines + [Indented(bar.value)];
      }
    }
    out := Printed(lines, None);
  }

  method Print(cfg: Config, width: nat, disks: seq<DiskInfo>, lw: LineWidth, resolve: ColorResolver)
    returns (out: Printed)
    requires DisksConsistent(disks)
    ensures out == Section(cfg, width, disks, lw, resolve)
  {
    if |cfg.mounts| == 0 {
      return Nothing;
    }
    var items := GetItems(cfg.mounts, disks);
    var table := BuildTable(items);
    table.SetWidth(width % 0x1_0000);
    table.SetContentArrangement(DynamicFullWidth);
    var view := table.View();
    assert view == PrintTable(items, width);
    var barWidth := MaxLineWidth(view, lw).value;
    var body := PrintLines(cfg, view, items, barWidth, resolve);
    out := Then(Then(Printed([Say("Disk:")], None), body), Printed([Blank], None));
  }

  /**
   * The pairing of lines and bars when no bar panics: the header line stands
   * alone, and every later line `i` is followed by exactly one bar, the one drawn
   * for item `i - 1`.
   */
  lemma {:induction false} LinesShape(view: TableView, items: seq<Item>, bar: BarDrawer, n: nat)
    requires 1 <= n <= |items| + 1
    requires forall k :: 0 <= k < n - 1 ==> bar(items[k].per).Ok?
    ensures Lines(view, items, bar, n).fault.None?
    ensures |Lines(view, items, bar, n).lines| == 2 * n - 1
    ensures Lines(view, items, bar, n).lines[0] == TableLine(view, 0)
    ensures forall i :: 1 <= i < n ==>
              && Lines(view, items, bar, n).lines[2 * i - 1] == TableLine(view, i)
              && Lines(view, items, bar, n).lines[2 * i] == Indented(bar(items[i - 1].per).value)
  {
    if n > 1 {
      LinesShape(view, items, bar, n - 1);
      var prev := Lines(view, items, bar, n - 1).lines;
      var cur := Lines(view, items, bar, n).lines;
      assert Steps(view, items, bar)[n - 1] == LineStep(view, items, bar, n - 1);
      assert cur == prev + [TableLine(view, n - 1), Indented(bar(items[n - 2].per).value)];
      forall i | 1 <= i < n - 1
        ensures cur[2 * i - 1] == TableLine(view, i) && cur[2 * i] == Indented(bar(items[i - 1].per).value)
      {
        assert cur[2 * i - 1] == prev[2 * i - 1] && cur[2 * i] == prev[2 * i];
      }
    } else {
      assert Lines(view, items, bar, 0) == Nothing;
    }
  }

  /**
   * With colours that parse and a laid-out table at least two columns wide, the
   * section never panics: the title, then the loop's header line and its line and
   * bar per kept disk (`LinesShape`), with every bar drawn at the laid-out
   * table's own widest line rather than at the shared width, then a blank line.
   */
  lemma SectionShape(cfg: Config, width: nat, disks: seq<DiskInfo>, lw: LineWidth, resolve: ColorResolver)
    requires DisksConsistent(disks) && |cfg.mounts| > 0
    requires resolve(cfg.defaultColor).Some? && resolve(cfg.warningColor).Some?
    requires MaxLineWidth(PrintTable(Selected(cfg.mounts, disks), width), lw).value >= 2
    ensures Section(cfg, width, disks, lw, resolve).fault.None?
    ensures |Section(cfg, width, disks, lw, resolve).lines| == 2 * |Selected(cfg.mounts, disks)| + 3
    ensures var items := Selected(cfg.mounts, disks);
            var view := PrintTable(items, width);
            var drawer := Drawer(cfg, MaxLineWidth(view, lw).value, resolve);
            Section(cfg, width, disks, lw, resolve).lines
            == [Say("Disk:")] + Lines(view, items, drawer, |items| + 1).lines + [Blank]
  {
    var items := Selected(cfg.mounts, disks);
    var view := PrintTable(items, width);
    var barWidth := MaxLineWidth(view, lw).value;
    SelectedFractions(cfg.mounts, disks);
    BodyShape(cfg, view, items, barWidth, resolve);
    var body := Lines(view, items, Drawer(cfg, barWidth, resolve), |items| + 1);
    assert Section(cfg, width, disks, lw, resolve) == Then(Then(Printed([Say("Disk:")], None), body), Printed([Blank], None));
  }

  /** With every bar drawable, the loop prints the header and a line and a bar per item. */
  lemma BodyShape(cfg: Config, view: TableView, items: seq<Item>, barWidth: nat, resolve: ColorResolver)
    requires resolve(cfg.defaultColor).Some? && resolve(cfg.warningColor).Some? && barWidth >= 2
    requires forall k :: 0 <= k < |items| ==> items[k].per.Num? ==> 0.0 <= items[k].per.v <= 1.0
    ensures Lines(view, items, Drawer(cfg, barWidth, resolve), |items| + 1).fault.None?
    ensures |Lines(view, items, Drawer(cfg, barWidth, resolve), |items| + 1).lines| == 2 * |items| + 1
  {
    BarsDraw(cfg, barWidth, items, resolve);
    LinesShape(view, items, Drawer(cfg, barWidth, resolve), |items| + 1);
  }

  /** With colours that parse and room for the brackets, no fraction in [0, 1] (or NaN) makes a bar panic. */
  lemma BarsDraw(cfg: Config, barWidth: nat, items: seq<Item>, resolve: ColorResolver)
    requires resolve(cfg.defaultColor).Some? && resolve(cfg.warningColor).Some? && barWidth >= 2
    requires forall k :: 0 <= k < |items| ==> items[k].per.Num? ==> 0.0 <= items[k].per.v <= 1.0
    ensures forall k :: 0 <= k < |items| ==> Drawer(cfg, barWidth, resolve)(items[k].per).Ok?
  {
    forall k | 0 <= k < |items|
      ensures Drawer(cfg, barWidth, resolve)(items[k].per).Ok?
    {
      ProcessStrSucceeds(barWidth, items[k].per, cfg.defaultColor, cfg.warningColor, cfg.warningThreshold, resolve);
    }
  }

  /** Every kept disk's used fraction is NaN (a zero-size disk) or lies in [0, 1]. */
  lemma SelectedFractions(mounts: map<string, string>, disks: seq<DiskInfo>)
    requires DisksConsistent(disks)
    ensures forall k :: 0 <= k < |Selected(mounts, disks)| ==>
              var per := Selected(mounts, disks)[k].per; per.Num? ==> 0.0 <= per.v <= 1.0
  {
    SelectedExactly(mounts, disks);
    var items := Selected(mounts, disks);
    forall k | 0 <= k < |items|
      ensures items[k].per.Num? ==> 0.0 <= items[k].per.v <= 1.0
    {
      var d := disks[Kept(mounts, disks)[k]];
      assert items[k] == NewItem(mounts[MountOf(d)], d);
    }
  }

  /** Left at its defaults, the section has no mounts to show, so it prints nothing. */
  lemma DefaultsShowNothing(width: nat, disks: seq<DiskInfo>, lw: LineWidth, resolve: ColorResolver)
    requires DisksConsistent(disks)
    ensures Defaults.defaultColor == "green" && Defaults.warningColor == "red" && Defaults.warningThreshold == 0.8
    ensures Section(Defaults, width, disks, lw, resolve) == Nothing
  {
  }
}
