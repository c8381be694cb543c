/** The constants of hp.h and test.h. */
module HazardParameters {
  const K: nat := 3             // hazard pointers per thread
  const MAX_THREAD: nat := 256
  const H: nat := K * MAX_THREAD  // hazard pointers in all

  /** The threshold of a zombie list, without DIRECT_SCAN. */
  function R(nbthreads: nat): nat {
    100 + 2 * (nbthreads * K)
  }
}
