/**
 * `main` (`src/main.rs`): the four sections in a fixed order, each measured
 * first, and then each printed at the widest measured width.
 */
module Dashboard {
  import opened Wrappers
  import opened Tools
  import opened Tables
  import opened Telemetry
  import opened Console
  import opened Components
  import Iter
  import DiskComponent
  import MemoryComponent
  import NetworkComponent

  /** The configuration file's four sections. */
  datatype Config = Config(system: SystemConfig, network: NetworkComponent.Config,
                           disk: DiskComponent.Config, memory: MemoryComponent.Config)

  /** The components in printing order: System, Network, Memory, Disk. */
  function ComponentsOf(config: Config): seq<Component>
  {
    [System(config.system), Network(config.network), Memory(config.memory), Disk(config.disk)]
  }

  /** The widths of the first `n` components. */
  function Widths(cs: seq<Component>, snap: Snapshot, lw: LineWidth): (ws: seq<nat>)
    requires Consistent(snap)
    ensures |ws| == |cs|
    ensures forall k :: 0 <= k < |cs| ==> ws[k] == WidthOf(cs[k], snap, lw)
  {
    if cs == [] then [] else Widths(cs[..|cs| - 1], snap, lw) + [WidthOf(cs[|cs| - 1], snap, lw)]
  }

  /** `v.iter().map(|s| s.width()).max().unwrap()`: the shared width. */
  function SharedWidth(cs: seq<Component>, snap: Snapshot, lw: LineWidth): nat
    requires Consistent(snap)
    requires cs != []
  {
    Iter.Max(Widths(cs, snap, lw)).value
  }

  /** Each component's section, printed at `width` on the snapshot `snap`. */
  function Sections(cs: seq<Component>, width: nat, snap: Snapshot, lw: LineWidth, resolve: ColorResolver)
    : seq<Printed>
    requires Consistent(snap)
  {
    seq(|cs|, k requires 0 <= k < |cs| => SectionOf(cs[k], width, snap, lw, resolve))
  }

  /** The measuring pass: every component's width, and the largest of them. */
  method Measure(cs: seq<Component>, snap: Snapshot, lw: LineWidth) returns (width: nat)
    requires Consistent(snap)
    requires cs != []
    ensures width == SharedWidth(cs, snap, lw)
  {
    var ws := [];
    for k := 0 to |cs|
      invariant ws == Widths(cs[..k], snap, lw)
    {
      assert cs[..k + 1][..k] == cs[..k];
      var w := Components.Width(cs[k], snap, lw);
      ws := ws + [w];
    }
    assert cs[..|cs|] == cs;
    width := Iter.Max(ws).value;
  }

  /** The printing pass: each section at `width`, in order, until one panics. */
  method Render(cs: seq<Component>, width: nat, snap: Snapshot, lw: LineWidth, resolve: ColorResolver)
    returns (out: Printed)
    requires Consistent(snap)
    ensures out == Chain(Sections(cs, width, snap, lw, resolve), |cs|)
  {
    ghost var ps := Sections(cs, width, snap, lw, resolve);
    out := Nothing;
    for k := 0 to |cs|
      invariant out == Chain(ps, k)
    {
      if out.fault.Some? {
        ChainAfterFault(ps, k, |cs|);
        return;
      }
      var section := Components.Print(cs[k], width, snap, lw, resolve);
      out := Then(out, section);
    }
  }

  /**
   * `main` once the configuration is read: measure every section on the
   * snapshot `measured`, then print them on the snapshot `rendered` (the
   * source queries the system afresh in each call).
   */
  method Run(config: Config, measured: Snapshot, rendered: Snapshot, lw: LineWidth, resolve: ColorResolver)
    returns (out: Printed)
    requires Consistent(measured) && Consistent(rendered)
    ensures out == Chain(Sections(ComponentsOf(config), SharedWidth(ComponentsOf(config), measured, lw), rendered, lw, resolve), 4)
  {
    var cs := ComponentsOf(config);
    var width := Measure(cs, measured, lw);
    out := Render(cs, width, rendered, lw, resolve);
  }

  /** The shared width is at least every component's width, and is one of them. */
  lemma SharedWidthIsMaximum(cs: seq<Component>, snap: Snapshot, lw: LineWidth)
    requires Consistent(snap)
    requires cs != []
    ensures forall k :: 0 <= k < |cs| ==> WidthOf(cs[k], snap, lw) <= SharedWidth(cs, snap, lw)
    ensures exists k :: 0 <= k < |cs| && WidthOf(cs[k], snap, lw) == SharedWidth(cs, snap, lw)
  {
    var ws := Widths(cs, snap, lw);
    var k :| 0 <= k < |ws| && ws[k] == Iter.Max(ws).value;
    assert WidthOf(cs[k], snap, lw) == SharedWidth(cs, snap, lw);
  }

  /**
   * With the fixed component list only the Disk section asks for a width, so
   * the width every section is printed at is the widest line of the disk table.
   */
  lemma SharedWidthIsDiskWidth(config: Config, snap: Snapshot, lw: LineWidth)
    requires Consistent(snap)
    ensures SharedWidth(ComponentsOf(config), snap, lw) == DiskComponent.MeasuredWidth(config.disk, snap.disks, lw)
  {
    var cs := ComponentsOf(config);
    SharedWidthIsMaximum(cs, snap, lw);
    OnlyDiskMeasures(cs[0], snap, lw);
    OnlyDiskMeasures(cs[1], snap, lw);
    OnlyDiskMeasures(cs[2], snap, lw);
    assert WidthOf(cs[3], snap, lw) == DiskComponent.MeasuredWidth(config.disk, snap.disks, lw);
  }

  /** The System and Network sections never panic, so the first two always print in full. */
  lemma FirstTwoSections(config: Config, width: nat, snap: Snapshot, lw: LineWidth, resolve: ColorResolver)
    requires Consistent(snap)
    ensures Chain(Sections(ComponentsOf(config), width, snap, lw, resolve), 2)
         == Printed([SystemReport(config.system.titleCommand, config.system.titleColor, config.system.showUpTime)]
                    + NetworkComponent.Section(config.network, snap.networks).lines, None)
  {
    var ps := Sections(ComponentsOf(config), width, snap, lw, resolve);
    assert ps[0] == Printed([SystemReport(config.system.titleCommand, config.system.titleColor, config.system.showUpTime)], None);
    assert ps[1] == NetworkComponent.Section(config.network, snap.networks);
    assert Chain(ps, 1) == Then(Nothing, ps[0]);
  }

  /**
   * With the RAM row hidden the Memory section panics on an empty maximum, so
   * whatever the shared width, the output ends after the System and Network
   * sections and the Disk section is never printed.
   */
  lemma HiddenRamEndsRun(config: Config, width: nat, snap: Snapshot, lw: LineWidth, resolve: ColorResolver)
    requires Consistent(snap)
    requires !config.memory.showRam
    ensures Chain(Sections(ComponentsOf(config), width, snap, lw, resolve), 4)
         == Printed([SystemReport(config.system.titleCommand, config.system.titleColor, config.system.showUpTime)]
                    + NetworkComponent.Section(config.network, snap.networks).lines, Some(EmptyMaximum))
  {
    var ps := Sections(ComponentsOf(config), width, snap, lw, resolve);
    FirstTwoSections(config, width, snap, lw, resolve);
    MemoryComponent.HiddenRamPanics(config.memory, width, snap.memory, lw, resolve);
    assert ps[2] == Printed([], Some(EmptyMaximum));
    ChainAfterFault(ps, 3, 4);
  }

  /**
   * When no section panics, the output is the four sections' lines in order:
   * System, Network, Memory, Disk.
   */
  lemma RenderOrder(config: Config, width: nat, snap: Snapshot, lw: LineWidth, resolve: ColorResolver)
    requires Consistent(snap)
    requires MemoryComponent.Section(config.memory, width, snap.memory, lw, resolve).fault.None?
    requires DiskComponent.Section(config.disk, width, snap.disks, lw, resolve).fault.None?
    ensures Chain(Sections(ComponentsOf(config), width, snap, lw, resolve), 4)
         == Printed([SystemReport(config.system.titleCommand, config.system.titleColor, config.system.showUpTime)]
                    + NetworkComponent.Section(config.network, snap.networks).lines
                    + MemoryComponent.Section(config.memory, width, snap.memory, lw, resolve).lines
                    + DiskComponent.Section(config.disk, width, snap.disks, lw, resolve).lines, None)
  {
    var ps := Sections(ComponentsOf(config), width, snap, lw, resolve);
    FirstTwoSections(config, width, snap, lw, resolve);
    assert ps[2] == MemoryComponent.Section(config.memory, width, snap.memory, lw, resolve);
    assert ps[3] == DiskComponent.Section(config.disk, width, snap.disks, lw, resolve);
    assert Chain(ps, 3) == Then(Chain(ps, 2), ps[2]);
    assert Chain(ps, 4) == Then(Chain(ps, 3), ps[3]);
  }
}
