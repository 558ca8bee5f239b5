/**
 * pay_for_chunk: the viewer pays for exactly one chunk, in strict index order,
 * at the price locked when the session was approved; the payment is split
 * between creator and platform and every running total is updated.
 */
module ChunkPayment {
  import opened Results
  import opened Ints
  import opened Constants
  import opened State
  import opened Ledger
  import opened Events
  import opened Accounts
  import opened Payments

  /**
   * The conditions under which a chunk payment is admitted: the session is
   * neither expired nor inactive, the index is a chunk of the video, approval
   * remains, the index is the expected next one, the video's price still equals
   * the locked price, and the viewer can pay it.
   */
  predicate PaymentAdmitted(s: ViewerSession, v: Video, balance: u64, chunkIndex: u32, now: i64)
  {
    && !IsExpired(s, now)
    && !IsInactive(s, now)
    && chunkIndex < v.totalChunks
    && HasApprovalRemaining(s)
    && chunkIndex == ExpectedChunkIndex(s)
    && v.pricePerChunk == s.approvedPricePerChunk
    && balance >= v.pricePerChunk
  }

  /**
   * The handler's seven validations, in the order the handler makes them; the
   * first that fails decides the error. Passing all of them is exactly `PaymentAdmitted`.
   */
  function CheckPayment(s: ViewerSession, v: Video, balance: u64, chunkIndex: u32, now: i64)
    : (r: Result<()>)
    ensures r.Ok? <==> PaymentAdmitted(s, v, balance, chunkIndex, now)
    ensures IsExpired(s, now) ==> r == Err(SessionExpired)
    ensures !IsExpired(s, now) && IsInactive(s, now) ==> r == Err(SessionInactive)
    ensures (&& !IsExpired(s, now) && !IsInactive(s, now)
             && chunkIndex >= v.totalChunks) ==> r == Err(InvalidChunkIndex)
    ensures (&& !IsExpired(s, now) && !IsInactive(s, now) && chunkIndex < v.totalChunks
             && !HasApprovalRemaining(s)) ==> r == Err(InsufficientApproval)
    ensures (&& !IsExpired(s, now) && !IsInactive(s, now) && chunkIndex < v.totalChunks
             && HasApprovalRemaining(s) && !SequenceCheckOverflows(s)
             && chunkIndex != ExpectedChunkIndex(s)) ==> r == Err(OutOfSequenceChunk)
    ensures (&& !IsExpired(s, now) && !IsInactive(s, now) && chunkIndex < v.totalChunks
             && HasApprovalRemaining(s) && chunkIndex == ExpectedChunkIndex(s)
             && v.pricePerChunk != s.approvedPricePerChunk) ==> r == Err(PriceChangedSinceApproval)
    ensures (&& !IsExpired(s, now) && !IsInactive(s, now) && chunkIndex < v.totalChunks
             && HasApprovalRemaining(s) && chunkIndex == ExpectedChunkIndex(s)
             && v.pricePerChunk == s.approvedPricePerChunk && balance < v.pricePerChunk) ==>
              r == Err(InsufficientBalance)
    ensures r.Err? && r.error == ArithmeticPanic ==> SequenceCheckOverflows(s)
  {
    if IsExpired(s, now) then Err(SessionExpired)
    else if IsInactive(s, now) then Err(SessionInactive)
    else if chunkIndex >= v.totalChunks then Err(InvalidChunkIndex)
    else if !HasApprovalRemaining(s) then Err(InsufficientApproval)
    else if SequenceCheckOverflows(s) then Err(ArithmeticPanic)
    else if (SequenceAcceptsOnlyExpected(s, chunkIndex); !IsNextChunkSequential(s, chunkIndex))
    then Err(OutOfSequenceChunk)
    else if v.pricePerChunk != s.approvedPricePerChunk then Err(PriceChangedSinceApproval)
    else if balance < v.pricePerChunk then Err(InsufficientBalance)
    else Ok(())
  }

  /** The accounts pay_for_chunk names exist and satisfy its declared constraints. */
  predicate PayAccountsReady(w: World, viewer: Pubkey, videoId: VideoId)
  {
    var key := SessionKey(viewer, videoId);
    && key in w.sessions && videoId in w.videos && videoId in w.earnings && w.platform.Some?
    && w.sessions[key].viewer == viewer && w.sessions[key].video == videoId
    && w.videos[videoId].isActive
    && w.earnings[videoId].creator == w.videos[videoId].creator
    && w.earnings[videoId].video == videoId
  }

  /**
   * An admitted chunk that nothing after the validations can stop: the fee
   * rate is at most 100%, the allowance covers the price, no recipient's
   * balance overflows and no running total overflows.
   */
  predicate PaymentCanComplete(w: World, viewer: Pubkey, videoId: VideoId, chunkIndex: u32, now: i64)
  {
    && PayAccountsReady(w, viewer, videoId)
    && var s := w.sessions[SessionKey(viewer, videoId)];
       var v := w.videos[videoId];
       var p := w.platform.value;
       && PaymentAdmitted(s, v, BalanceOf(w.ledger, viewer), chunkIndex, now)
       && p.platformFeeBasisPoints <= BASIS_POINTS
       && CanDistribute(w.ledger, viewer, v.creator, p.authority, v.pricePerChunk)
       && s.totalSpent + v.pricePerChunk <= U64_MAX
       && CountersHaveRoom(v, w.earnings[videoId], p, 1, v.pricePerChunk)
  }

  function PayForChunk(w: World, viewer: Pubkey, videoId: VideoId, chunkIndex: u32, now: i64)
    : (r: Result<Committed>)
    // Validation order: with its accounts in place, the first failing check decides the error.
    ensures PayAccountsReady(w, viewer, videoId) ==>
              var c := CheckPayment(w.sessions[SessionKey(viewer, videoId)], w.videos[videoId],
                                    BalanceOf(w.ledger, viewer), chunkIndex, now);
              c.Err? ==> r == Err(c.error)
    // A payment goes through only for an admitted chunk.
    ensures r.Ok? ==>
              && PayAccountsReady(w, viewer, videoId)
              && PaymentAdmitted(w.sessions[SessionKey(viewer, videoId)], w.videos[videoId],
                                 BalanceOf(w.ledger, viewer), chunkIndex, now)
              && SessionKey(viewer, videoId) in r.value.world.sessions
              && videoId in r.value.world.videos && videoId in r.value.world.earnings
              && r.value.world.platform.Some?
    // Conversely, an admitted chunk with nothing left to overflow is paid.
    ensures PaymentCanComplete(w, viewer, videoId, chunkIndex, now) ==> r.Ok?
    // The session: one more chunk consumed, this index recorded, the price added.
    ensures r.Ok? ==>
              var key := SessionKey(viewer, videoId);
              var s := w.sessions[key];
              var s' := r.value.world.sessions[key];
              && s'.chunksConsumed == s.chunksConsumed + 1
              && s'.chunksConsumed <= s'.maxApprovedChunks
              && s'.lastPaidChunkIndex == Some(chunkIndex)
              && s'.totalSpent == s.totalSpent + w.videos[videoId].pricePerChunk
              && s'.lastActivity == now
              && s'.(chunksConsumed := s.chunksConsumed, lastPaidChunkIndex := s.lastPaidChunkIndex,
                     totalSpent := s.totalSpent, lastActivity := s.lastActivity) == s
              && r.value.world.sessions == w.sessions[key := s']
    // The split and the totals.
    ensures r.Ok? ==>
              var v := w.videos[videoId];
              var e := w.earnings[videoId];
              var p := w.platform.value;
              var v' := r.value.world.videos[videoId];
              var e' := r.value.world.earnings[videoId];
              var p' := r.value.world.platform.value;
              var ev := r.value.event;
              var first := r.value.world.sessions[SessionKey(viewer, videoId)].chunksConsumed == 1;
              && ev.ChunkPaid?
              && ev.amountPaid == v.pricePerChunk
              && ev.platformFee + ev.creatorAmount == v.pricePerChunk
              && (p.platformFeeBasisPoints <= BASIS_POINTS ==>
                    ev.platformFee == v.pricePerChunk * p.platformFeeBasisPoints / BASIS_POINTS)
              && v'.totalChunksServed == v.totalChunksServed + 1
              && v'.totalSessions == v.totalSessions + SessionIncrement(first)
              && v'.(totalChunksServed := v.totalChunksServed, totalSessions := v.totalSessions) == v
              && e'.totalEarned == e.totalEarned + ev.creatorAmount
              && e'.totalChunksSold == e.totalChunksSold + 1
              && e'.totalSessions == e.totalSessions + SessionIncrement(first)
              && p'.totalRevenue == p.totalRevenue + ev.platformFee
              && p'.(totalRevenue := p.totalRevenue) == p
              && r.value.world.videos == w.videos[videoId := v']
              && r.value.world.earnings == w.earnings[videoId := e']
    // The record: its sequence number is the new consumed count, and what approval remains.
    ensures r.Ok? ==>
              var s' := r.value.world.sessions[SessionKey(viewer, videoId)];
              var ev := r.value.event;
              && ev.ChunkPaid?
              && ev.chunkIndex == chunkIndex
              && ev.paymentSequence == s'.chunksConsumed
              && ev.chunksRemaining == s'.maxApprovedChunks - s'.chunksConsumed
    // The allowance: each part of the payment had to be covered by it, and only
    // the viewer's can change.
    ensures r.Ok? ==>
              && AllowanceOf(w.ledger, viewer) >= r.value.event.creatorAmount
              && AllowanceOf(w.ledger, viewer) >= r.value.event.platformFee
              && forall o :: o != viewer ==> AllowanceOf(r.value.world.ledger, o) == AllowanceOf(w.ledger, o)
    // The money: the viewer pays the price out of balance and allowance, the
    // creator gets its share, the treasury the fee.
    ensures r.Ok? && Distinct(viewer, w.videos[videoId].creator, w.platform.value.authority) ==>
              var l := w.ledger;
              var l' := r.value.world.ledger;
              var ev := r.value.event;
              && BalanceOf(l', viewer) == BalanceOf(l, viewer) - ev.amountPaid
              && AllowanceOf(l', viewer) == AllowanceOf(l, viewer) - ev.amountPaid
              && BalanceOf(l', w.videos[videoId].creator)
                   == BalanceOf(l, w.videos[videoId].creator) + ev.creatorAmount
              && BalanceOf(l', w.platform.value.authority)
                   == BalanceOf(l, w.platform.value.authority) + ev.platformFee
  {
    var key := SessionKey(viewer, videoId);
    var s :- LoadSession(w, key);
    var video :- LoadVideo(w, videoId);
    var earnings :- LoadEarnings(w, videoId);
    var platform :- LoadPlatform(w);
    if s.viewer != viewer || s.video != videoId then Err(ConstraintViolated)
    else if !video.isActive then Err(VideoNotActive)
    else if earnings.creator != video.creator then Err(Unauthorized)
    else if earnings.video != videoId then Err(InvalidCreatorEarnings)
    else
      var _ :- CheckPayment(s, video, BalanceOf(w.ledger, viewer), chunkIndex, now);
      var price := video.pricePerChunk;
      var split :- SplitPayment(platform, price);
      var ledger' :- Distribute(w.ledger, viewer, video.creator, platform.authority, split);
      var s1 := UpdateActivity(s, now, chunkIndex);
      var spent :- CheckedAddU64(s1.totalSpent, price);
      var s' := s1.(totalSpent := spent);
      var totals :- CreditSale(video, earnings, platform, 1, split, s'.chunksConsumed == 1);
      Ok(Committed(
           World(Some(totals.platform),
                 w.videos[videoId := totals.video],
                 w.earnings[videoId := totals.earnings],
                 w.sessions[key := s'],
                 ledger'),
           ChunkPaid(viewer, videoId, video.creator, chunkIndex, s'.chunksConsumed, price,
                     split.fee, split.creatorAmount, s'.maxApprovedChunks - s'.chunksConsumed, now)))
  }

  /** A chunk payment keeps the world valid: in particular consumed stays within approved. */
  lemma PayForChunkPreservesValid(w: World, viewer: Pubkey, videoId: VideoId, chunkIndex: u32,
                                  now: i64)
    requires Valid(w)
    ensures PayForChunk(w, viewer, videoId, chunkIndex, now).Ok? ==>
              Valid(PayForChunk(w, viewer, videoId, chunkIndex, now).value.world)
  {
    var r := PayForChunk(w, viewer, videoId, chunkIndex, now);
    if r.Ok? {
      var key := SessionKey(viewer, videoId);
      var v := w.videos[videoId];
      var v' := r.value.world.videos[videoId];
      assert VideoWellFormed(videoId, v) && v'.(totalChunksServed := v.totalChunksServed,
                                                totalSessions := v.totalSessions) == v;
      SaleKeepsValid(w, r.value.world, key);
    }
  }

  /**
   * In a valid world the unchecked `last + 1` of the sequence check and the
   * unchecked counter increment never overflow.
   */
  lemma PayForChunkNeverPanics(w: World, viewer: Pubkey, videoId: VideoId, chunkIndex: u32,
                               now: i64)
    requires Valid(w)
    ensures PayForChunk(w, viewer, videoId, chunkIndex, now) != Err(ArithmeticPanic)
  {
    var key := SessionKey(viewer, videoId);
    if PayAccountsReady(w, viewer, videoId) {
      assert SessionWellFormed(key, w.sessions[key], w.videos);
      assert !SequenceCheckOverflows(w.sessions[key]);
    }
  }
}
