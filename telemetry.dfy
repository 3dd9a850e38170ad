/**
 * The facts the dashboard reads from the `sysinfo` library, as one snapshot.
 * Querying the operating system is not modelled: a snapshot is an input.
 */
module Telemetry {

  /** An OS path or name: valid UTF-8 text, or bytes that are not. */
  datatype OsText = Utf8(text: string) | NotUtf8

  /** `to_str().unwrap_or("")`. */
  function TextOr(t: OsText): string
  {
    match t
    case Utf8(s) => s
    case NotUtf8 => ""
  }

  /** One entry of the disk list; `kind` is the text `disk.kind().to_string()` gives. */
  datatype DiskInfo = DiskInfo(mountPoint: OsText, fileSystem: OsText, kind: string,
                               totalSpace: nat, availableSpace: nat)

  /** Memory and swap counters, in bytes. */
  datatype MemoryInfo = MemoryInfo(totalMemory: nat, usedMemory: nat, totalSwap: nat, usedSwap: nat)

  /** One network interface: byte counters and the text of its MAC address. */
  datatype NetworkData = NetworkData(totalReceived: nat, totalTransmitted: nat, macAddress: string)

  datatype Snapshot = Snapshot(disks: seq<DiskInfo>, memory: MemoryInfo, networks: map<string, NetworkData>)

  /** A disk never has more space available than it has in total. */
  predicate DisksConsistent(disks: seq<DiskInfo>)
  {
    forall i :: 0 <= i < |disks| ==> disks[i].availableSpace <= disks[i].totalSpace
  }

  /** `sysinfo` computes used memory and swap by subtracting from the totals, so they never exceed them. */
  predicate MemoryConsistent(m: MemoryInfo)
  {
    m.usedMemory <= m.totalMemory && m.usedSwap <= m.totalSwap
  }

  predicate Consistent(s: Snapshot)
  {
    DisksConsistent(s.disks) && MemoryConsistent(s.memory)
  }
}
