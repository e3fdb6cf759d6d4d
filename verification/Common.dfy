/** Small shared vocabulary: optional values, and the source's saturating unsigned arithmetic. */
module Common {

  datatype Option<+T> = None | Some(value: T)

  /** `u64::MAX`. The counters of the cache are unbounded here except where the code tests for overflow. */
  const MAX_U64: nat := 0xFFFF_FFFF_FFFF_FFFF

  /** `u64::saturating_sub`. */
  function SatSub(a: nat, b: nat): nat {
    if a < b then 0 else a - b
  }

  /** `u64::saturating_add`. */
  function SatAdd(a: nat, b: nat): nat {
    if a + b > MAX_U64 then MAX_U64 else a + b
  }

  function Max(a: nat, b: nat): nat {
    if a < b then b else a
  }
}
