/**
 * The upload size guard shared by the photo uploader and the project pages:
 * `file.size / 1024 / 1024 < limit`, computed in exact arithmetic.
 */
module FileLimits {

  const BytesPerMiB: real := 1048576.0

  /** The guard as written, dividing the byte count down to MiB. */
  function SizeBelow(size: int, limitMiB: real): (ok: bool)
    ensures ok <==> (size as real) < limitMiB * BytesPerMiB
  {
    (size as real) / 1024.0 / 1024.0 < limitMiB
  }

  /**
   * For a whole number of MiB the guard is strict: a byte count is accepted
   * iff it is at most one byte short of the limit, so a file of exactly the
   * limit is refused.
   */
  lemma SizeBelowBoundary(size: int, limitMiB: nat)
    ensures SizeBelow(size, limitMiB as real) <==> size <= limitMiB * 1048576 - 1
  {
  }
}
