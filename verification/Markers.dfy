/** Predicates that are always true. The invariants of some objects are stated under them, so that only those proofs that mention
    a marker look inside the invariant; all others take it as it is.
  */
module Markers {
  ghost predicate OpenTable(k: int) {
    true
  }

  /** 0 for strmap, 1 for idsmap, 2 for stack.bin. */
  ghost predicate OpenFiles(k: int) {
    true
  }

  ghost predicate OpenStore(k: int) {
    true
  }

  ghost predicate OpenHeap(k: int) {
    true
  }

  ghost predicate OpenLinks(k: int) {
    true
  }

  ghost predicate OpenInit(k: int) {
    true
  }

  ghost predicate OpenCounts(k: int) {
    true
  }

  ghost predicate OpenWheel(k: int) {
    true
  }

  ghost predicate OpenSlots(k: int) {
    true
  }

  ghost predicate OpenFold(k: int) {
    true
  }

  ghost predicate OpenCong(k: int) {
    true
  }

  ghost predicate OpenTimer(k: int) {
    true
  }
}
