/** How one call to the cluster or to the remote server turns out. */
module Faults {
  /** A call may fail without effect, or take effect and still be reported as failed. A crash of
      the process during a call has the same two outcomes. */
  datatype Fault = Fine | LostBefore | LostAfter
}
