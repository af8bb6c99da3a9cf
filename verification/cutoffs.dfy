/** Generation cutoffs, as control sockets, data sockets and leases are closed by. */
module Cutoffs {
  /** A generation is in reach of a cutoff unless a positive cutoff is at most it. */
  predicate Older(generation: int, cutoff: int) { cutoff <= 0 || generation < cutoff }
}
