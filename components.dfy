/**
 * The `Component` trait (`src/components/component.rs`) and its four
 * implementations, seen from the caller: a preferred width, defaulting to 0,
 * and a section printed at a shared width.
 */
module Components {
  import opened Wrappers
  import opened Tools
  import opened Tables
  import opened Telemetry
  import opened Console
  import DiskComponent
  import MemoryComponent
  import NetworkComponent

  /** `[system]`: the command whose output is the title, its colour, and whether to show the uptime. */
  datatype SystemConfig = SystemConfig(titleCommand: string, titleColor: string, showUpTime: bool)

  datatype Component =
    | System(system: SystemConfig)
    | Network(network: NetworkComponent.Config)
    | Memory(memory: MemoryComponent.Config)
    | Disk(disk: DiskComponent.Config)

  /** The trait's default `width()`, which System and Network keep. */
  function DefaultWidth(): nat
  {
    0
  }

  /** `width()` of a component, measured on the snapshot `snap`. */
  function WidthOf(c: Component, snap: Snapshot, lw: LineWidth): nat
    requires Consistent(snap)
  {
    match c
    case System(_) => DefaultWidth()
    case Network(_) => DefaultWidth()
    case Memory(_) => MemoryComponent.Width()
    case Disk(cfg) => DiskComponent.MeasuredWidth(cfg, snap.disks, lw)
  }

  /** `print(width)` of a component on the snapshot `snap`. */
  function SectionOf(c: Component, width: nat, snap: Snapshot, lw: LineWidth, resolve: ColorResolver): Printed
    requires Consistent(snap)
  {
    match c
    case System(cfg) => Printed([SystemReport(cfg.titleCommand, cfg.titleColor, cfg.showUpTime)], None)
    case Network(cfg) => NetworkComponent.Section(cfg, snap.networks)
    case Memory(cfg) => MemoryComponent.Section(cfg, width, snap.memory, lw, resolve)
    case Disk(cfg) => DiskComponent.Section(cfg, width, snap.disks, lw, resolve)
  }

  method Width(c: Component, snap: Snapshot, lw: LineWidth) returns (w: nat)
    requires Consistent(snap)
    ensures w == WidthOf(c, snap, lw)
  {
    match c {
      case System(_) => w := DefaultWidth();
      case Network(_) => w := DefaultWidth();
      case Memory(_) => w := MemoryComponent.Width();
      case Disk(cfg) => w := DiskComponent.Width(cfg, snap.disks, lw);
    }
  }

  method Print(c: Component, width: nat, snap: Snapshot, lw: LineWidth, resolve: ColorResolver) returns (out: Printed)
    requires Consistent(snap)
    ensures out == SectionOf(c, width, snap, lw, resolve)
  {
    match c {
      case System(cfg) => out := Printed([SystemReport(cfg.titleCommand, cfg.titleColor, cfg.showUpTime)], None);
      case Network(cfg) => out := NetworkComponent.Print(cfg, snap.networks);
      case Memory(cfg) => out := MemoryComponent.Print(cfg, width, snap.memory, lw, resolve);
      case Disk(cfg) => out := DiskComponent.Print(cfg, width, snap.disks, lw, resolve);
    }
  }

  /**
   * Only the Disk section asks for a width: every other component's is 0, and
   * the disk's is the widest line of its measured table.
   */
  lemma OnlyDiskMeasures(c: Component, snap: Snapshot, lw: LineWidth)
    requires Consistent(snap)
    ensures !c.Disk? ==> WidthOf(c, snap, lw) == 0
    ensures c.Disk? ==> forall i :: 0 <= i < LineCount(DiskComponent.MeasuredTable(c.disk, snap.disks)) ==>
              lw(DiskComponent.MeasuredTable(c.disk, snap.disks), i) <= WidthOf(c, snap, lw)
  {
  }

  /**
   * Only Memory and Disk can panic; the System and Network sections ignore the
   * width they are given.
   */
  lemma SectionFaults(c: Component, width: nat, width': nat, snap: Snapshot, lw: LineWidth, resolve: ColorResolver)
    requires Consistent(snap)
    ensures SectionOf(c, width, snap, lw, resolve).fault.Some? ==> c.Memory? || c.Disk?
    ensures c.System? || c.Network? ==> SectionOf(c, width, snap, lw, resolve) == SectionOf(c, width', snap, lw, resolve)
  {
  }
}
