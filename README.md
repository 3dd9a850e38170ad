# motd-rs dashboard core, modelled in Dafny

motd-rs prints a "message of the day" dashboard with four sections, in a fixed order: System, Network, Memory, Disk.
The program runs in two phases. First every component reports the width it would like (`width()`); the
trait default is 0, and only Disk measures its table. The largest of these becomes the shared width, and then
every component prints at that one width. Disk and Memory print a table with one utilization bar under
every Memory line and under every Disk line but the header. A bar is `[`, a coloured run of `=`, a colour
reset, an uncoloured run of `=`, `]`. The warning colour is used when the fraction is strictly above the
configured threshold.

This project models that core:

- `Tools` (`tools.rs`): `process_str`, the bar. It uses integer width arithmetic, the truncating
  `f64 as usize` cast and the colour choice. Its two `expect` panics and the two `usize` underflows
  are modelled as a `BarFault`, not as preconditions. Colours are the values an abstract
  `ColorResolver` (the stand-in for `color_to_rgb8`) yields. `byte_str` is an uninterpreted `Bytes(n)`
  piece. Rendered text is a sequence of pieces, and `Paint` turns it into the visible glyphs with the pen
  colour each one is drawn in.
- `Tables`: the part of comfy_table the components use. A `Table` class holds the fields the source
  mutates (preset, content arrangement, width, rows, column paddings). `View()` gives them as a value.
  How a table lays itself out is a parameter `LineWidth`: the display width of line `i`. The table has
  one line per row (`LineCount`). The line-to-bar pairing depends on this assumption.
- `Telemetry`: the sysinfo snapshots (disks, memory, networks), passed in as values.
- `Console`: what `println!` emits. A section's output is `Printed(lines, fault)`. A fault is a panic.
  The lines printed before the panic are kept, and `Chain` runs the sections one after another and
  stops at the first panic.
- `DiskComponent`, `MemoryComponent`, `NetworkComponent` (`components/*.rs`). Each has:
  - the table it builds, as a function and as a method over `Table`;
  - the section it prints, as a function `Section`;
  - a `Print` method whose loop is proved equal to `Section`.
- `Components` and `Dashboard` (`component.rs`, `main.rs`): the trait's dispatch, the measure phase
  (`Iterator::max` as `Iter.Max`) and the render loop.

### Memory with RAM hidden

Memory with `show_ram = false, show_swap = true` does not quietly print nothing: it panics at
memory.rs:121. `table()` returns an empty table (memory.rs:50-52). `print` then takes
`table.lines().map(..).max().unwrap()` (memory.rs:121), which under one line per row is the maximum of
an empty sequence, so it panics before printing any line. `show_ram = false, show_swap = false`
reaches the same panic by another route. The model follows the code: `MemoryComponent.HiddenRamPanics`
proves that the memory section panics with nothing printed exactly when `show_ram` is false. `Dashboard.HiddenRamEndsRun`
proves that the run then stops after the System and Network sections.

## Model

| member | source | states |
|---|---|---|
| Tools.ProcessStr | src/tools.rs:23-59 | the bar is produced iff both colours parse, `width >= 2` and the truncated used count fits in `width - 2`; otherwise the error names the normal colour first, then the warning colour, then the `width - 2` underflow, then the `total - used` underflow |
| Tools.BarGlyphs | src/tools.rs:54-58 | the visible bar is `[`, `used` glyphs in the chosen colour, `width - 2 - used` uncoloured glyphs, `]`, and its length is exactly `width` |
| Tools.PaintBar | src/tools.rs:55 | the colour escape covers only the used run; the free run and the closing bracket come after the reset and carry no colour |
| Tools.UsedIsFloor | src/tools.rs:50-52 | for a fraction in [0,1], used is `Floor(total * per)` and never exceeds the interior `total` |
| Tools.UsedAtExtremes | src/tools.rs:51-52 | fraction 0 gives used 0 (all free), fraction 1 gives used equal to the interior (none free) |
| Tools.NaNDrawsEmptyBar | src/tools.rs:43-51 | a NaN fraction (0/0 on an empty disk or swap) casts to 0 used cells and never picks the warning colour |
| Tools.ProcessStrSucceeds | src/tools.rs:30-52 | with parsable colours, `width >= 2` and a fraction in [0,1] or NaN, the bar never panics |
| Tools.ThresholdIsStrict | src/tools.rs:43-47 | at `per == threshold` every glyph is uncoloured or in the normal colour: the warning colour needs `per > threshold` |
| Tools.Ratio | src/components/memory.rs:99-100 | `a as f64 / b as f64` is NaN exactly when `b == 0` and lies in [0,1] when `a <= b` |
| Iter.Max | src/main.rs:48 | the maximum is absent iff the sequence is empty; otherwise it is an element and bounds every element |
| Tables.WithRow | src/components/disk.rs:55-58 | comfy_table's `add_row` on a table value: the row goes last, with a default-padded column for each cell beyond the current count; `Table.AddRow` is proved to perform it |
| Tables.Table.constructor | src/components/disk.rs:41 | a new table is empty, with the default preset, arrangement and no width |
| Tables.Table.LoadPreset | src/components/disk.rs:42-43 | only the preset changes |
| Tables.Table.SetContentArrangement | src/components/disk.rs:139-141 | only the content arrangement changes |
| Tables.Table.SetWidth | src/components/disk.rs:140 | only the width changes, to the given `u16` |
| Tables.Table.AddRow | src/components/disk.rs:55-58 | the new table is the old one with the row added, as `WithRow` defines |
| Tables.Table.SetColumnPadding | src/components/network.rs:63-68 | only the padding of the given column changes |
| Tables.MaxLineWidth | src/components/disk.rs:143 | the widest line is absent iff the table has no lines; otherwise it bounds every line and is attained by one |
| DiskComponent.ItemRow | src/components/disk.rs:113-123 | an item's row; `RowMatchesHeader` states its 7 cells in header order |
| DiskComponent.DefaultsShowNothing | src/components/disk.rs:12-37 | the serde defaults are green, red and 0.8 with no mounts, so a default disk section prints nothing |
| DiskComponent.NewItem | src/components/disk.rs:92-111 | an item's fraction is `(total - avail) / total`, in [0,1] or NaN for a zero-size disk |
| DiskComponent.RowMatchesHeader | src/components/disk.rs:113-123 | an item row has exactly 7 cells and cell `k` is the field named by header title `k` (name, fs, type, mount, used, total, avail) |
| DiskComponent.SelectedExactly | src/components/disk.rs:64-77 | the selected items correspond one to one, in enumeration order, to exactly the disks whose mount point is a key of `mounts`; each is named by the value that mount maps to |
| DiskComponent.Selected | src/components/disk.rs:64-77 | the items `get_items` returns; `SelectedExactly` characterises them by index |
| DiskComponent.GetItems | src/components/disk.rs:64-77 | the filtering loop yields exactly the selection `SelectedExactly` characterises |
| DiskComponent.TableOf | src/components/disk.rs:40-62 | the header row then one row per item; `BuildTable` builds it and `RowMatchesHeader` fixes each row's cell order |
| DiskComponent.BuildTable | src/components/disk.rs:40-62 | the table has the `NOTHING` preset and dynamic arrangement, the header row of the 7 centred titles first, then one row per item in order |
| DiskComponent.MeasuredWidth | src/components/disk.rs:127-131 | the measured width bounds every line of the disk table and is attained by one of them |
| DiskComponent.Width | src/components/disk.rs:127-131 | the method returns the measured width |
| DiskComponent.Section | src/components/disk.rs:133-160 | the disk section prints nothing and does not panic exactly when the mount map is empty |
| DiskComponent.PrintLines | src/components/disk.rs:146-158 | the print loop emits exactly `Lines`, its turns chained one after another, and stops at the first panicking bar, after which `Console.ChainAfterFault` says nothing more is printed |
| DiskComponent.Print | src/components/disk.rs:133-160 | the method emits exactly the disk section |
| DiskComponent.LinesShape | src/components/disk.rs:146-157 | line 0 (the header) has no bar; table line `i > 0` is followed by exactly one bar, drawn from `items[i-1]`'s fraction |
| DiskComponent.SectionShape | src/components/disk.rs:143-159 | with parsable colours and a laid-out table at least 2 wide, the section is `Disk:`, the paired lines and bars with every bar drawn at the laid-out table's own widest line (not at the shared width), then a blank line: `2n + 3` lines for `n` items |
| DiskComponent.SelectedFractions | src/components/disk.rs:97-100 | every selected item's fraction is in [0,1] or NaN, so no disk bar underflows |
| MemoryComponent.DefaultsShowBoth | src/components/memory.rs:12-44 | with the serde defaults both flags are on: a RAM row then a Swap row, and RAM's fraction then Swap's |
| MemoryComponent.TableRowsByFlags | src/components/memory.rs:47-93 | with `!show_ram && show_swap` the table has no rows; otherwise it has a `RAM:` row iff `show_ram` and then a `Swap:` row iff `show_swap`, each a title cell and one value cell |
| MemoryComponent.TableOf | src/components/memory.rs:47-93 | the table `table()` returns; `TableRowsByFlags` states its rows for every pair of flags |
| MemoryComponent.BuildTable | src/components/memory.rs:47-93 | the table-building method yields the table `TableRowsByFlags` describes |
| MemoryComponent.Fractions | src/components/memory.rs:95-109 | the fraction list has one entry per enabled flag, RAM's `used/total` first and Swap's last, each in [0,1] or NaN |
| MemoryComponent.RowsMatchFractions | src/components/memory.rs:47-109 | the table has as many lines as there are fractions exactly when the `!show_ram && show_swap` rule does not fire |
| MemoryComponent.Width | src/components/memory.rs:113-115 | always 0; `Components.OnlyDiskMeasures` states it for every non-Disk component |
| MemoryComponent.Section | src/components/memory.rs:117-136 | the memory section; `HiddenRamPanics` states when it panics, `SectionShape` what it prints otherwise |
| MemoryComponent.PrintLines | src/components/memory.rs:124-134 | the print loop emits exactly `Lines`, its turns chained one after another, and stops at the first panicking bar, after which `Console.ChainAfterFault` says nothing more is printed |
| MemoryComponent.Print | src/components/memory.rs:117-136 | the method emits exactly the memory section |
| MemoryComponent.LinesShape | src/components/memory.rs:124-134 | table line `i` is followed by exactly one bar, drawn from `per[i]` |
| MemoryComponent.HiddenRamPanics | src/components/memory.rs:117-121 | the memory section panics on the empty maximum, having printed nothing, exactly when `show_ram` is false |
| MemoryComponent.SectionShape | src/components/memory.rs:117-136 | with RAM shown, parsable colours and a table at least 2 wide, the section is `Memory:`, the paired lines and bars drawn at the table's own widest line, then a blank line: `2n + 2` lines for `n` fractions |
| NetworkComponent.DefaultsShowNothing | src/components/network.rs:10-18 | with the serde defaults both flags are off, so a default network section prints nothing |
| NetworkComponent.TrimStartDrops | src/components/network.rs:48 | trimming the front drops exactly a leading run of whitespace |
| NetworkComponent.TrimEndDrops | src/components/network.rs:48 | trimming the back drops exactly a trailing run of whitespace |
| NetworkComponent.TrimmedSlice | src/components/network.rs:48 | the trimmed name is a slice of the name, starts and ends with non-whitespace, and trimming again changes nothing |
| NetworkComponent.FlowLayout | src/components/network.rs:43-53 | the flow cells are, in order: trimmed name, received icon, received bytes, `/`, transmitted icon, transmitted bytes followed by `)` |
| NetworkComponent.RowLayout | src/components/network.rs:41-60 | a row has the 6 flow cells first iff `show_flow`, plus a final `mac:` cell iff `show_mac`, and nothing else |
| NetworkComponent.InterfaceRow | src/components/network.rs:41-60 | one interface's row; `RowLayout` and `FlowLayout` state its cells |
| NetworkComponent.Present | src/components/network.rs:36-40 | every interface kept is in the live map |
| NetworkComponent.PresentExactly | src/components/network.rs:36-40 | the kept interfaces are exactly the configured ones present in the live map, in configured order |
| NetworkComponent.Section | src/components/network.rs:21-71 | the network section never panics, and prints nothing exactly when both `show_flow` and `show_mac` are false |
| NetworkComponent.FillTable | src/components/network.rs:26-62 | the interface loop yields the raw-name lines and the unpadded table of the kept interfaces |
| NetworkComponent.BuildRow | src/components/network.rs:41-60 | the cell-adding steps yield exactly the interface's row |
| NetworkComponent.PadTable | src/components/network.rs:63-68 | the padding loop replaces the column paddings by the padded ones and changes nothing else |
| NetworkComponent.PaddedDefaults | src/components/network.rs:63-68 | columns 1 through 4 get padding `(1, 0)` and every other column keeps the default |
| NetworkComponent.Print | src/components/network.rs:21-71 | the method emits exactly the network section |
| NetworkComponent.TableOf | src/components/network.rs:36-68 | the padded table; `TableLayout` states its rows and column paddings |
| NetworkComponent.TableLayout | src/components/network.rs:36-68 | the table has one row per kept interface, in order; its column count is the row width, and columns 1-4 are padded `(1, 0)` |
| NetworkComponent.NameLines | src/components/network.rs:54-56 | without `show_flow` each kept interface's raw name is printed on its own line before the table; with it, no such line |
| Components.WidthOf | src/components/component.rs:2-4 | a component's `width()`; `OnlyDiskMeasures` states that only Disk measures |
| Components.SectionOf | src/main.rs:51 | a component's `print`; `SectionFaults` states which components can panic |
| Components.Width | src/main.rs:48 | dispatching `width()` returns the component's width |
| Components.Print | src/main.rs:51 | dispatching `print` emits the component's section |
| Components.OnlyDiskMeasures | src/components/component.rs:2-4 | System, Network and Memory report 0; Disk's width bounds every line of its table |
| Components.SectionFaults | src/components/network.rs:21 | only Memory and Disk can panic; System and Network ignore the width they are given |
| Dashboard.ComponentsOf | src/main.rs:41-46 | the components in the order System, Network, Memory, Disk, which `RenderOrder` prints in |
| Dashboard.SharedWidth | src/main.rs:48 | `max().unwrap()` of the widths; `SharedWidthIsMaximum` and `SharedWidthIsDiskWidth` state its value |
| Dashboard.Widths | src/main.rs:48 | one measurement per component, in order |
| Dashboard.Measure | src/main.rs:48 | the measuring loop returns the shared width, the maximum of all measurements |
| Dashboard.Render | src/main.rs:50-52 | the render loop prints the sections in order and stops at the first panic |
| Dashboard.Run | src/main.rs:41-52 | the program measures System, Network, Memory, Disk on one snapshot and then renders all four on another at the shared width |
| Dashboard.SharedWidthIsMaximum | src/main.rs:48 | the shared width bounds every component's width and is attained by one, so the `unwrap` cannot fail |
| Dashboard.SharedWidthIsDiskWidth | src/main.rs:41-48 | the shared width equals Disk's measured width |
| Dashboard.FirstTwoSections | src/main.rs:41-51 | the first two sections print the system report and then the network section, with no panic |
| Dashboard.HiddenRamEndsRun | src/main.rs:50-52 | with `show_ram` false, the run prints the system report and the network section, then panics and never reaches Disk |
| Dashboard.RenderOrder | src/main.rs:41-52 | when neither Memory nor Disk panics, the output is System's, Network's, Memory's and Disk's lines in that order |
| Console.ChainAfterFault | src/main.rs:50-52 | after a panic, later sections (and later turns of a print loop) change nothing |
| Console.ChainPrefix | src/main.rs:50-52 | output printed by earlier sections is never retracted by later ones |
| Console.ChainWithoutFault | src/main.rs:50-52 | with no panic, the output is the concatenation of all sections' lines |

## Left out

- src/components/system.rs: its body is a shell command, sysinfo OS strings, humantime and colour output.
  The System section is one opaque `SystemReport` output. Its two `expect` panics (command failure,
  unsupported title colour) are not modelled.
- Components.SectionFaults: does not say that the real System section can panic, because that section is opaque here.
- Telemetry acquisition (`Disks::new_with_refreshed_list`, `System::new_with_specifics`,
  `Networks::new_with_refreshed_list`) is replaced by snapshot parameters. The run takes one snapshot
  for the measure phase and one for the render phase. In the source, memory's `table` and `get_per`
  each fetch on their own; the model uses one memory snapshot per phase.
- comfy_table layout: how `Dynamic`/`DynamicFullWidth` spread columns, how borders are drawn, and
  unicode display width. These are the `LineWidth` parameter and one line per row. With a real preset,
  the table `Table::new()` returns in the `!show_ram && show_swap` case may draw border lines. That
  would change where the memory section fails, not whether it fails.
- `byte_str` (byte_unit formatting), `{:.1}%` percentage formatting (a `Percent` token), csscolorparser
  (`ColorResolver`) and termion's ANSI escape bytes (`Fg`/`StyleReset` pieces).
- f64 rounding: fractions are exact reals, and NaN is a separate value. `f64 as usize` truncates and sends
  NaN and negative values to 0, as Rust does. The warning test on NaN is false, as IEEE comparison is.
- Clap argument parsing, reading the config file and TOML/serde deserialisation (src/main.rs:38-40). The serde defaults are the `Defaults` constants.
- Release-build wrap-around of `usize` subtraction. The debug-build panics are modelled as faults
  (`WidthUnderflow`, `FreeUnderflow`).
- DiskComponent.NewItem: requires `avail <= total`. In the source, `total_space - available_space` is a
  `u64` subtraction that sysinfo never makes underflow.
- MemoryComponent.Fractions: requires `used <= total` for RAM and swap, which holds because sysinfo computes
  used memory by saturating subtraction.
