/**
 * The program's account records and the logic attached to them (state.rs):
 * the platform fee calculator, video metadata validation, and the viewer
 * session predicates and activity update.
 */
module State {
  import opened Results
  import opened Ints
  import opened Constants

  /** An account address; only equality between addresses matters here. */
  type Pubkey = nat

  /** Rust strings are measured by `.len()`, i.e. in UTF-8 bytes. */
  type Bytes = seq<u8>

  /** A video is addressed by its caller-chosen identifier. */
  type VideoId = Bytes

  /** The address every field of a freshly allocated account holds. */
  const DEFAULT_PUBKEY: Pubkey := 0

  // ---------------------------------------------------------------------------
  // Platform
  // ---------------------------------------------------------------------------

  /** The global configuration record, with its running totals. */
  datatype Platform = Platform(
    authority: Pubkey,
    tokenMint: Pubkey,
    platformFeeBasisPoints: u16,
    minPricePerChunk: u64,
    totalVideos: u64,
    totalSessions: u64,
    totalRevenue: u64)

  /**
   * The platform's share of `amount`: the product is formed in 128 bits, divided
   * by BASIS_POINTS and cast back to 64 bits. For any fee rate up to 100% the
   * calculation cannot fail, rounds down, and never exceeds the amount, so the
   * final cast loses nothing.
   */
  function CalculatePlatformFee(p: Platform, amount: u64): (r: Result<u64>)
    ensures r.Ok?
    ensures p.platformFeeBasisPoints <= BASIS_POINTS ==>
              r.value == amount * p.platformFeeBasisPoints / BASIS_POINTS
    ensures p.platformFeeBasisPoints <= BASIS_POINTS ==> r.value <= amount
  {
    MulMonotonic(amount, p.platformFeeBasisPoints, U64_MAX, U16_MAX);
    var product :- CheckedMulU128(amount, p.platformFeeBasisPoints);
    var fee :- CheckedDivU128(product, BASIS_POINTS);
    FeeWithinAmount(amount, p.platformFeeBasisPoints);
    Ok(TruncateToU64(fee))
  }

  /** For a rate of at most 100%, the rounded-down share is at most the amount. */
  lemma FeeWithinAmount(amount: nat, bps: nat)
    ensures bps <= BASIS_POINTS ==> amount * bps / BASIS_POINTS <= amount
  {
    if bps <= BASIS_POINTS {
      var product := amount * bps;
      MulMonotonic(amount, bps, amount, BASIS_POINTS);
      assert (product / BASIS_POINTS) * BASIS_POINTS <= product;
    }
  }

  // ---------------------------------------------------------------------------
  // Video
  // ---------------------------------------------------------------------------

  /** A registered video and its serving statistics. */
  datatype Video = Video(
    creator: Pubkey,
    videoId: VideoId,
    ipfsHash: Bytes,
    totalChunks: u32,
    pricePerChunk: u64,
    title: Bytes,
    description: Bytes,
    isActive: bool,
    totalSessions: u64,
    totalChunksServed: u64,
    createdAt: i64)

  /** The length and chunk-count bounds `Video::validate` enforces. */
  predicate WithinVideoLimits(v: Video)
  {
    && |v.videoId| <= MAX_VIDEO_ID_LENGTH
    && |v.ipfsHash| <= MAX_IPFS_HASH_LENGTH
    && |v.title| <= MAX_TITLE_LENGTH
    && |v.description| <= MAX_DESCRIPTION_LENGTH
    && v.totalChunks <= MAX_TOTAL_CHUNKS
  }

  /**
   * `Video::validate`: accepts exactly the videos within the limits, and
   * otherwise reports the first violated limit in the order id, content hash,
   * title, description, chunk count.
   */
  function ValidateVideo(v: Video): (r: Result<()>)
    ensures r.Ok? <==> WithinVideoLimits(v)
    ensures |v.videoId| > MAX_VIDEO_ID_LENGTH ==> r == Err(VideoIdTooLong)
    ensures |v.videoId| <= MAX_VIDEO_ID_LENGTH && |v.ipfsHash| > MAX_IPFS_HASH_LENGTH ==>
              r == Err(IpfsHashTooLong)
    ensures (|v.videoId| <= MAX_VIDEO_ID_LENGTH && |v.ipfsHash| <= MAX_IPFS_HASH_LENGTH
             && |v.title| > MAX_TITLE_LENGTH) ==> r == Err(TitleTooLong)
    ensures (|v.videoId| <= MAX_VIDEO_ID_LENGTH && |v.ipfsHash| <= MAX_IPFS_HASH_LENGTH
             && |v.title| <= MAX_TITLE_LENGTH && |v.description| > MAX_DESCRIPTION_LENGTH) ==>
              r == Err(DescriptionTooLong)
    ensures (|v.videoId| <= MAX_VIDEO_ID_LENGTH && |v.ipfsHash| <= MAX_IPFS_HASH_LENGTH
             && |v.title| <= MAX_TITLE_LENGTH && |v.description| <= MAX_DESCRIPTION_LENGTH
             && v.totalChunks > MAX_TOTAL_CHUNKS) ==> r == Err(TooManyChunks)
  {
    if |v.videoId| > MAX_VIDEO_ID_LENGTH then Err(VideoIdTooLong)
    else if |v.ipfsHash| > MAX_IPFS_HASH_LENGTH then Err(IpfsHashTooLong)
    else if |v.title| > MAX_TITLE_LENGTH then Err(TitleTooLong)
    else if |v.description| > MAX_DESCRIPTION_LENGTH then Err(DescriptionTooLong)
    else if v.totalChunks > MAX_TOTAL_CHUNKS then Err(TooManyChunks)
    else Ok(())
  }

  // ---------------------------------------------------------------------------
  // Viewer session
  // ---------------------------------------------------------------------------

  /** One viewer's delegation and consumption state for one video. */
  datatype ViewerSession = ViewerSession(
    viewer: Pubkey,
    video: VideoId,
    maxApprovedChunks: u32,
    chunksConsumed: u32,
    totalSpent: u64,
    approvedPricePerChunk: u64,
    lastPaidChunkIndex: Option<u32>,
    sessionStart: i64,
    lastActivity: i64)

  /** The contents of a session account that has just been allocated. */
  const ZERO_SESSION: ViewerSession :=
    ViewerSession(DEFAULT_PUBKEY, [], 0, 0, 0, 0, None, 0, 0)

  /** More than 24 hours have passed since the session was opened. */
  predicate IsExpired(s: ViewerSession, now: i64)
  {
    now - s.sessionStart > SESSION_EXPIRY_DURATION
  }

  /** More than one hour has passed since the session's last activity. */
  predicate IsInactive(s: ViewerSession, now: i64)
  {
    now - s.lastActivity > SESSION_INACTIVITY_DURATION
  }

  /** Some approved chunk has not been consumed yet. */
  predicate HasApprovalRemaining(s: ViewerSession)
  {
    s.chunksConsumed < s.maxApprovedChunks
  }

  /** The unchecked `last + 1` of the sequence check would overflow a u32. */
  predicate SequenceCheckOverflows(s: ViewerSession)
  {
    s.lastPaidChunkIndex.Some? && s.lastPaidChunkIndex.value == U32_MAX
  }

  /** The one chunk index the sequence check accepts next. */
  function ExpectedChunkIndex(s: ViewerSession): nat
  {
    match s.lastPaidChunkIndex
    case None => 0
    case Some(last) => last + 1
  }

  /**
   * `is_next_chunk_sequential`: index 0 before any payment, otherwise exactly
   * the successor of the last paid index.
   */
  predicate IsNextChunkSequential(s: ViewerSession, chunkIndex: u32)
    requires !SequenceCheckOverflows(s)
  {
    match s.lastPaidChunkIndex
    case None => chunkIndex == 0
    case Some(last) => chunkIndex == last + 1
  }

  /**
   * `update_activity`: records the payment time, counts one more consumed
   * chunk and remembers the paid index; every other field is kept. The
   * unchecked increment needs a counter below the u32 maximum.
   */
  function UpdateActivity(s: ViewerSession, now: i64, chunkIndex: u32): (s': ViewerSession)
    requires s.chunksConsumed < U32_MAX
    ensures s'.lastActivity == now
    ensures s'.chunksConsumed == s.chunksConsumed + 1
    ensures s'.lastPaidChunkIndex == Some(chunkIndex)
    ensures s'.(lastActivity := s.lastActivity, chunksConsumed := s.chunksConsumed,
                lastPaidChunkIndex := s.lastPaidChunkIndex) == s
  {
    s.(lastActivity := now, chunksConsumed := s.chunksConsumed + 1,
       lastPaidChunkIndex := Some(chunkIndex))
  }

  // ---------------------------------------------------------------------------
  // Creator earnings
  // ---------------------------------------------------------------------------

  /** The creator's running totals for one video. */
  datatype CreatorEarnings = CreatorEarnings(
    creator: Pubkey,
    video: VideoId,
    totalEarned: u64,
    totalSessions: u64,
    totalChunksSold: u64)

  // ---------------------------------------------------------------------------
  // Properties
  // ---------------------------------------------------------------------------

  /** Exactly 24 hours after opening a session is not yet expiry; one second later is. */
  lemma ExpiryBoundary(s: ViewerSession)
    requires s.sessionStart + SESSION_EXPIRY_DURATION + 1 <= I64_MAX
    ensures !IsExpired(s, s.sessionStart + SESSION_EXPIRY_DURATION)
    ensures IsExpired(s, s.sessionStart + SESSION_EXPIRY_DURATION + 1)
  {
  }

  /** Exactly one hour after the last activity is not yet inactivity; one second later is. */
  lemma InactivityBoundary(s: ViewerSession)
    requires s.lastActivity + SESSION_INACTIVITY_DURATION + 1 <= I64_MAX
    ensures !IsInactive(s, s.lastActivity + SESSION_INACTIVITY_DURATION)
    ensures IsInactive(s, s.lastActivity + SESSION_INACTIVITY_DURATION + 1)
  {
  }

  /** Once expired, a session stays expired at every later time. */
  lemma ExpiryIsPermanent(s: ViewerSession, t1: i64, t2: i64)
    requires t1 <= t2 && IsExpired(s, t1)
    ensures IsExpired(s, t2)
  {
  }

  /** The sequence check accepts exactly one index: the expected one. */
  lemma SequenceAcceptsOnlyExpected(s: ViewerSession, chunkIndex: u32)
    requires !SequenceCheckOverflows(s)
    ensures IsNextChunkSequential(s, chunkIndex) <==> chunkIndex == ExpectedChunkIndex(s)
    ensures s.lastPaidChunkIndex.None? ==> (IsNextChunkSequential(s, chunkIndex) <==> chunkIndex == 0)
  {
  }

  /**
   * After a chunk is paid, the sequence check accepts exactly its successor:
   * no index can be repeated or skipped.
   */
  lemma UpdateAdvancesSequence(s: ViewerSession, now: i64, paid: u32, next: u32)
    requires s.chunksConsumed < U32_MAX
    requires !SequenceCheckOverflows(UpdateActivity(s, now, paid))
    ensures IsNextChunkSequential(UpdateActivity(s, now, paid), next) <==> next == paid + 1
    ensures next <= paid ==> !IsNextChunkSequential(UpdateActivity(s, now, paid), next)
  {
  }

  /**
   * The per-chunk admission rule applied to a run of indices: each must find
   * approval remaining and pass the sequence check, then updates the session.
   */
  function AcceptRun(s: ViewerSession, now: i64, indices: seq<u32>): Option<ViewerSession>
    decreases |indices|
  {
    if |indices| == 0 then Some(s)
    else if !HasApprovalRemaining(s) || SequenceCheckOverflows(s)
            || !IsNextChunkSequential(s, indices[0]) then None
    else AcceptRun(UpdateActivity(s, now, indices[0]), now, indices[1..])
  }

  /** The indices `start, start + 1, ..., start + n - 1`. */
  predicate CountsUpFrom(indices: seq<u32>, start: nat)
  {
    forall k :: 0 <= k < |indices| ==> indices[k] == start + k
  }

  /**
   * A run of per-chunk payments is admitted exactly when its indices count up
   * from the expected index (0 for a session with no payment yet) without gap or
   * repetition, and it fits in the remaining approval.
   */
  lemma {:induction false} AcceptRunCountsUp(s: ViewerSession, now: i64, indices: seq<u32>)
    requires s.chunksConsumed <= s.maxApprovedChunks
    ensures AcceptRun(s, now, indices).Some? <==>
              CountsUpFrom(indices, ExpectedChunkIndex(s))
              && s.chunksConsumed + |indices| <= s.maxApprovedChunks
    ensures AcceptRun(s, now, indices).Some? ==>
              AcceptRun(s, now, indices).value.chunksConsumed == s.chunksConsumed + |indices|
    decreases |indices|
  {
    if |indices| > 0 {
      if !HasApprovalRemaining(s) || SequenceCheckOverflows(s)
         || !IsNextChunkSequential(s, indices[0]) {
        if !HasApprovalRemaining(s) {
          assert s.chunksConsumed + |indices| > s.maxApprovedChunks;
        } else if SequenceCheckOverflows(s) {
          assert indices[0] != ExpectedChunkIndex(s) + 0;
        } else {
          SequenceAcceptsOnlyExpected(s, indices[0]);
          assert indices[0] != ExpectedChunkIndex(s) + 0;
        }
      } else {
        var s1 := UpdateActivity(s, now, indices[0]);
        SequenceAcceptsOnlyExpected(s, indices[0]);
        AcceptRunCountsUp(s1, now, indices[1..]);
        assert ExpectedChunkIndex(s1) == ExpectedChunkIndex(s) + 1;
        if CountsUpFrom(indices, ExpectedChunkIndex(s)) {
          forall k | 0 <= k < |indices[1..]|
            ensures indices[1..][k] == ExpectedChunkIndex(s1) + k
          {
            assert indices[1..][k] == indices[k + 1];
          }
        }
        if CountsUpFrom(indices[1..], ExpectedChunkIndex(s1)) {
          forall k | 0 <= k < |indices|
            ensures indices[k] == ExpectedChunkIndex(s) + k
          {
            if k > 0 {
              assert indices[k] == indices[1..][k - 1];
            }
          }
        }
      }
    }
  }

  /** From a session with no payment yet, only the indices 0, 1, 2, ... are admitted. */
  lemma FreshSessionAcceptsZeroOneTwo(s: ViewerSession, now: i64, indices: seq<u32>)
    requires s.chunksConsumed <= s.maxApprovedChunks
    requires s.lastPaidChunkIndex.None?
    requires AcceptRun(s, now, indices).Some?
    ensures forall k :: 0 <= k < |indices| ==> indices[k] == k
  {
    AcceptRunCountsUp(s, now, indices);
  }
}
