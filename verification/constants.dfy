/** The program's limits, durations and fee constants (constants.rs). */
module Constants {

  // Limits that keep emitted records within transaction and log size budgets.
  const MAX_VIDEO_ID_LENGTH: nat := 64
  const MAX_IPFS_HASH_LENGTH: nat := 128
  const MAX_TITLE_LENGTH: nat := 200
  const MAX_DESCRIPTION_LENGTH: nat := 1000
  const MAX_CHUNKS_PER_APPROVAL: nat := 1000
  const MAX_TOTAL_CHUNKS: nat := 10000

  /** Lower bound on a new video's chunk count (create_video.rs). */
  const MIN_VIDEO_CHUNKS: nat := 1

  // Session windows, in seconds.
  const SESSION_EXPIRY_DURATION: int := 24 * 60 * 60
  const SESSION_INACTIVITY_DURATION: int := 60 * 60

  // 10000 basis points are 100%.
  const BASIS_POINTS: nat := 10000
  const MAX_PLATFORM_FEE_BPS: nat := 1000
}
