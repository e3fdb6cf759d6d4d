/** The fill-id allocator at startup (disk.rs:361-421). */
module FillIds {
  import opened Common

  /** The part of `StartupScanResult` the allocator reads. */
  datatype StartupScan = StartupScan(maxFillId: nat, sawCacheFiles: bool, incomplete: bool)

  /** `.fill_id_counter` as startup finds it: absent, unreadable or not a number or zero, or a number. */
  datatype CounterFile = Missing | Damaged | Stored(value: nat)

  datatype Startup = Refuse | Start(next: nat)

  /** `read_persisted_fill_id_counter`, then `load_next_fill_id`. */
  function LoadNextFillId(counter: CounterFile, scan: StartupScan): Startup {
    var scanNext := Max(SatAdd(scan.maxFillId, 1), 1);
    match counter
    case Damaged => Refuse
    case Stored(v) => if v == 0 then Refuse else Start(Max(v, scanNext))
    case Missing =>
      if scan.incomplete then Refuse
      else if scan.sawCacheFiles then Start(scanNext)
      else Start(1)
  }
}
