/** Timers and flags. */
module Switches {
  /** A timer that is armed or not, or a flag. An enumeration rather than bool, because proofs about wide
      records with many Boolean components are much more expensive. */
  datatype Switch = Off | On

  function Switched(on: bool): Switch { if on then On else Off }
}
