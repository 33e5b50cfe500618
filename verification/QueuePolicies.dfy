/** How an edge queue overflows and how it closes. */
module QueuePolicies {
  datatype Overflow = Block | DropOldest | DropNewest | AbortRun
  datatype DrainMode = Drain | Discard
}
