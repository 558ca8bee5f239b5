/**
 * The program as a whole: one step per instruction handler, a transaction
 * that fails leaving the accounts as they were, and runs of transactions from
 * the world before initialization. The invariant `Valid` holds in every world
 * such a run reaches, which is what makes the handlers' unchecked arithmetic
 * safe and the fee calculation exact.
 */
module Program {
  import opened Results
  import opened Ints
  import opened Constants
  import opened State
  import opened Ledger
  import opened Events
  import opened Accounts
  import opened PlatformInit
  import opened VideoCreation
  import opened VideoUpdate
  import opened Delegation
  import opened ChunkPayment
  import opened BatchSettlement
  import opened Revocation
  import opened SessionClosing

  /** An instruction with its signer and arguments. */
  datatype Instruction =
    | InitializePlatformIx(authority: Pubkey, tokenMint: Pubkey, feeBps: u16, minPrice: u64)
    | CreateVideoIx(creator: Pubkey, videoId: VideoId, ipfsHash: Bytes, totalChunks: u32,
                    price: u64, title: Bytes, description: Bytes)
    | UpdateVideoIx(signer: Pubkey, videoId: VideoId, newPrice: Option<u64>, newActive: Option<bool>)
    | ApproveDelegateIx(viewer: Pubkey, videoId: VideoId, maxChunks: u32)
    | PayForChunkIx(viewer: Pubkey, videoId: VideoId, chunkIndex: u32)
    | SettleSessionIx(owner: Pubkey, signer: Pubkey, videoId: VideoId, chunkCount: u32,
                      settlementTimestamp: i64)
    | RevokeDelegateIx(viewer: Pubkey, videoId: VideoId)
    | CloseSessionIx(viewer: Pubkey, videoId: VideoId)

  /** One instruction executed at time `now`. */
  datatype Transaction = Transaction(ix: Instruction, now: i64)

  function Step(w: World, ix: Instruction, now: i64): Result<Committed>
  {
    match ix
    case InitializePlatformIx(a, m, bps, minPrice) => InitializePlatform(w, a, m, bps, minPrice, now)
    case CreateVideoIx(c, id, h, n, price, t, d) => CreateVideo(w, c, id, h, n, price, t, d, now)
    case UpdateVideoIx(sg, id, price, active) => UpdateVideo(w, sg, id, price, active, now)
    case ApproveDelegateIx(vw, id, n) => ApproveStreamingDelegate(w, vw, id, n, now)
    case PayForChunkIx(vw, id, i) => PayForChunk(w, vw, id, i, now)
    case SettleSessionIx(o, sg, id, n, ts) => SettleSession(w, o, sg, id, n, ts, now)
    case RevokeDelegateIx(vw, id) => RevokeStreamingDelegate(w, vw, id, now)
    case CloseSessionIx(vw, id) => CloseViewerSession(w, vw, id, now)
  }

  /** A transaction is atomic: when its instruction fails, no account changes. */
  function Apply(w: World, t: Transaction): (w': World)
    ensures Step(w, t.ix, t.now).Err? ==> w' == w
    ensures Step(w, t.ix, t.now).Ok? ==> w' == Step(w, t.ix, t.now).value.world
  {
    match Step(w, t.ix, t.now)
    case Ok(c) => c.world
    case Err(_) => w
  }

  /** The world after executing `txs` in order. */
  function Run(w: World, txs: seq<Transaction>): World
    decreases |txs|
  {
    if |txs| == 0 then w else Run(Apply(w, txs[0]), txs[1..])
  }

  /** Every instruction keeps the world valid. */
  lemma StepPreservesValid(w: World, ix: Instruction, now: i64)
    requires Valid(w)
    ensures Step(w, ix, now).Ok? ==> Valid(Step(w, ix, now).value.world)
  {
    match ix
    case InitializePlatformIx(a, m, bps, minPrice) =>
      InitializePreservesValid(w, a, m, bps, minPrice, now);
    case CreateVideoIx(c, id, h, n, price, t, d) =>
      CreateVideoPreservesValid(w, c, id, h, n, price, t, d, now);
    case UpdateVideoIx(sg, id, price, active) =>
      UpdateVideoPreservesValid(w, sg, id, price, active, now);
    case ApproveDelegateIx(vw, id, n) =>
      ApprovePreservesValid(w, vw, id, n, now);
    case PayForChunkIx(vw, id, i) =>
      PayForChunkPreservesValid(w, vw, id, i, now);
    case SettleSessionIx(o, sg, id, n, ts) =>
      SettleSessionPreservesValid(w, o, sg, id, n, ts, now);
    case RevokeDelegateIx(vw, id) =>
      RevokePreservesValid(w, vw, id, now);
    case CloseSessionIx(vw, id) =>
      ClosePreservesValid(w, vw, id, now);
  }

  /**
   * In a valid world no instruction reaches an unchecked operation that would
   * abort: the re-approval subtraction and the sequence increment stay in range.
   */
  lemma StepNeverPanics(w: World, ix: Instruction, now: i64)
    requires Valid(w)
    ensures Step(w, ix, now) != Err(ArithmeticPanic)
  {
    match ix
    case ApproveDelegateIx(vw, id, n) =>
      ApproveNeverPanics(w, vw, id, n, now);
    case PayForChunkIx(vw, id, i) =>
      PayForChunkNeverPanics(w, vw, id, i, now);
    case _ =>
  }

  /** Every run from a valid world ends in a valid world. */
  lemma {:induction false} RunPreservesValid(w: World, txs: seq<Transaction>)
    requires Valid(w)
    ensures Valid(Run(w, txs))
    decreases |txs|
  {
    if |txs| > 0 {
      StepPreservesValid(w, txs[0].ix, txs[0].now);
      RunPreservesValid(Apply(w, txs[0]), txs[1..]);
    }
  }

  /**
   * Every world reachable from the uninitialized program: no session has
   * consumed more than it was approved, the fee rate is at most 1000 basis
   * points (so at most 100% and the fee never exceeds the amount), and no
   * instruction can abort on unchecked arithmetic.
   */
  lemma ReachableWorldInvariants(l: Ledger, txs: seq<Transaction>, ix: Instruction, now: i64)
    ensures var w := Run(Genesis(l), txs);
            && Valid(w)
            && (forall k | k in w.sessions ::
                  w.sessions[k].chunksConsumed <= w.sessions[k].maxApprovedChunks)
            && (w.platform.Some? ==>
                  w.platform.value.platformFeeBasisPoints <= MAX_PLATFORM_FEE_BPS <= BASIS_POINTS)
            && Step(w, ix, now) != Err(ArithmeticPanic)
  {
    GenesisValid(l);
    RunPreservesValid(Genesis(l), txs);
    var w := Run(Genesis(l), txs);
    forall k | k in w.sessions
      ensures w.sessions[k].chunksConsumed <= w.sessions[k].maxApprovedChunks
    {
      assert SessionWellFormed(k, w.sessions[k], w.videos);
    }
    StepNeverPanics(w, ix, now);
  }

  /**
   * After the creator changes a video's price, unit payments on any session
   * locked at a different price are refused, while batch settlement of the
   * same session still charges the locked price.
   */
  lemma PriceChangeSplitsPaymentPaths(w: World, creator: Pubkey, videoId: VideoId, newPrice: u64,
                                      newActive: Option<bool>, now: i64, viewer: Pubkey,
                                      chunkIndex: u32, chunkCount: u32, settlementTimestamp: i64,
                                      now2: i64)
    requires UpdateVideo(w, creator, videoId, Some(newPrice), newActive, now).Ok?
    requires SessionKey(viewer, videoId) in w.sessions
    requires w.sessions[SessionKey(viewer, videoId)].approvedPricePerChunk != newPrice
    ensures var w1 := UpdateVideo(w, creator, videoId, Some(newPrice), newActive, now).value.world;
            && PayForChunk(w1, viewer, videoId, chunkIndex, now2).Err?
            && (PayAccountsReady(w1, viewer, videoId)
                && CheckPayment(w1.sessions[SessionKey(viewer, videoId)], w1.videos[videoId],
                                BalanceOf(w1.ledger, viewer), chunkIndex, now2).Err? ==>
                  PayForChunk(w1, viewer, videoId, chunkIndex, now2).error
                    in {SessionExpired, SessionInactive, InvalidChunkIndex, InsufficientApproval,
                        OutOfSequenceChunk, PriceChangedSinceApproval, ArithmeticPanic})
    ensures var w1 := UpdateVideo(w, creator, videoId, Some(newPrice), newActive, now).value.world;
            var s := w.sessions[SessionKey(viewer, videoId)];
            var r := SettleSession(w1, viewer, viewer, videoId, chunkCount, settlementTimestamp, now2);
            r.Ok? ==>
              && r.value.event.SessionSettled?
              && r.value.event.totalPayment == s.approvedPricePerChunk * chunkCount
  {
    var w1 := UpdateVideo(w, creator, videoId, Some(newPrice), newActive, now).value.world;
    assert w1.sessions == w.sessions;
    assert w1.videos[videoId].pricePerChunk == newPrice;
  }

  /**
   * Closing a session and approving again starts over: the approval sees a
   * new session, which opens with nothing consumed at the video's current price.
   */
  lemma CloseThenApproveStartsFresh(w: World, viewer: Pubkey, videoId: VideoId, now: i64,
                                    maxChunks: u32, now2: i64)
    requires CloseViewerSession(w, viewer, videoId, now).Ok?
    ensures var w1 := CloseViewerSession(w, viewer, videoId, now).value.world;
            var a := ApproveStreamingDelegate(w1, viewer, videoId, maxChunks, now2);
            && IsNewSession(w1, SessionKey(viewer, videoId))
            && (a.Ok? ==>
                  && a.value.event.DelegationApproved?
                  && !a.value.event.isReapproval
                  && a.value.world.sessions[SessionKey(viewer, videoId)].chunksConsumed == 0
                  && a.value.world.sessions[SessionKey(viewer, videoId)].approvedPricePerChunk
                       == w.videos[videoId].pricePerChunk)
  {
    var w1 := CloseViewerSession(w, viewer, videoId, now).value.world;
    assert SessionKey(viewer, videoId) !in w1.sessions;
    assert w1.videos == w.videos;
  }

  /**
   * After the viewer revokes, the platform can move none of their tokens: a
   * unit payment for a chunk with a positive price fails, and so does any
   * batch settlement with a positive total.
   */
  lemma RevokeBlocksPayments(w: World, viewer: Pubkey, videoId: VideoId, now: i64,
                             chunkIndex: u32, chunkCount: u32, settlementTimestamp: i64, now2: i64)
    requires RevokeStreamingDelegate(w, viewer, videoId, now).Ok?
    ensures var w1 := RevokeStreamingDelegate(w, viewer, videoId, now).value.world;
            && AllowanceOf(w1.ledger, viewer) == 0
            && (videoId in w1.videos && w1.videos[videoId].pricePerChunk > 0 ==>
                  PayForChunk(w1, viewer, videoId, chunkIndex, now2).Err?)
            && (SessionKey(viewer, videoId) in w1.sessions
                && w1.sessions[SessionKey(viewer, videoId)].approvedPricePerChunk > 0 ==>
                  SettleSession(w1, viewer, viewer, videoId, chunkCount, settlementTimestamp,
                                now2).Err?)
  {
  }

  /**
   * Expiry is final for everything but closing: once a session opened at a
   * non-zero time has expired, at every later time a re-approval, a unit
   * payment and a batch settlement of it all fail, with `SessionExpired` once
   * their accounts are in place, while its viewer can still close it.
   */
  lemma ExpiredSessionCanOnlyBeClosed(w: World, viewer: Pubkey, videoId: VideoId, expiredAt: i64,
                                      later: i64, maxChunks: u32, chunkIndex: u32,
                                      chunkCount: u32, settlementTimestamp: i64)
    requires Valid(w)
    requires SessionKey(viewer, videoId) in w.sessions
    requires w.sessions[SessionKey(viewer, videoId)].sessionStart != 0
    requires IsExpired(w.sessions[SessionKey(viewer, videoId)], expiredAt) && expiredAt <= later
    ensures ApproveStreamingDelegate(w, viewer, videoId, maxChunks, later).Err?
    ensures ApproveAccountsReady(w, videoId) && ValidChunkRequest(maxChunks) ==>
              ApproveStreamingDelegate(w, viewer, videoId, maxChunks, later) == Err(SessionExpired)
    ensures PayForChunk(w, viewer, videoId, chunkIndex, later).Err?
    ensures PayAccountsReady(w, viewer, videoId) ==>
              PayForChunk(w, viewer, videoId, chunkIndex, later) == Err(SessionExpired)
    ensures SettleSession(w, viewer, viewer, videoId, chunkCount, settlementTimestamp, later).Err?
    ensures SettleAccountsReady(w, viewer, viewer, videoId) && chunkCount > 0 ==>
              SettleSession(w, viewer, viewer, videoId, chunkCount, settlementTimestamp, later)
                == Err(SessionExpired)
    ensures CloseViewerSession(w, viewer, videoId, later).Ok?
  {
    var key := SessionKey(viewer, videoId);
    ExpiryIsPermanent(w.sessions[key], expiredAt, later);
    assert SessionWellFormed(key, w.sessions[key], w.videos);
  }
}
