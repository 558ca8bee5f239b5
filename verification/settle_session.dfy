/**
 * settle_session: a batch of chunks consumed off the per-chunk path is paid in
 * one step, priced at the session's locked price and bounded by the approved
 * ceiling. Inactivity is tolerated; expiry is not. The per-chunk sequence
 * marker is left where it was.
 */
module BatchSettlement {
  import opened Results
  import opened Ints
  import opened Constants
  import opened State
  import opened Ledger
  import opened Events
  import opened Accounts
  import opened Payments

  /** The price of a batch at the session's locked price. */
  function BatchTotal(s: ViewerSession, chunkCount: u32): nat
  {
    s.approvedPricePerChunk * chunkCount
  }

  /**
   * The conditions under which a batch settles: a non-empty batch, an
   * unexpired session, a settlement time between the session's opening and
   * now, a batch within the approved ceiling, a total that fits in 64 bits, and
   * a viewer balance covering it.
   */
  predicate SettlementAdmitted(s: ViewerSession, balance: u64, chunkCount: u32,
                               settlementTimestamp: i64, now: i64)
  {
    && chunkCount > 0
    && !IsExpired(s, now)
    && s.sessionStart <= settlementTimestamp <= now
    && s.chunksConsumed + chunkCount <= s.maxApprovedChunks
    && BatchTotal(s, chunkCount) <= U64_MAX
    && balance >= BatchTotal(s, chunkCount)
  }

  /**
   * The handler's validations, in the order the handler makes them; the first
   * that fails decides the error. Passing all of them is exactly `SettlementAdmitted`; on success
   * the batch total is returned.
   */
  function CheckSettlement(s: ViewerSession, balance: u64, chunkCount: u32,
                           settlementTimestamp: i64, now: i64): (r: Result<u64>)
    ensures r.Ok? <==> SettlementAdmitted(s, balance, chunkCount, settlementTimestamp, now)
    ensures r.Ok? ==> r.value == BatchTotal(s, chunkCount)
    ensures chunkCount == 0 ==> r == Err(InvalidChunkCount)
    ensures chunkCount > 0 && IsExpired(s, now) ==> r == Err(SessionExpired)
    ensures (&& chunkCount > 0 && !IsExpired(s, now)
             && settlementTimestamp < s.sessionStart) ==> r == Err(SettlementTooOld)
    ensures (&& chunkCount > 0 && !IsExpired(s, now) && s.sessionStart <= settlementTimestamp
             && settlementTimestamp > now) ==> r == Err(SettlementInFuture)
    ensures (&& chunkCount > 0 && !IsExpired(s, now)
             && s.sessionStart <= settlementTimestamp <= now
             && s.chunksConsumed + chunkCount > U32_MAX) ==> r == Err(ArithmeticOverflow)
    ensures (&& chunkCount > 0 && !IsExpired(s, now)
             && s.sessionStart <= settlementTimestamp <= now
             && s.chunksConsumed + chunkCount <= U32_MAX
             && s.chunksConsumed + chunkCount > s.maxApprovedChunks) ==>
              r == Err(SettlementExceedsApproval)
    ensures (&& chunkCount > 0 && !IsExpired(s, now)
             && s.sessionStart <= settlementTimestamp <= now
             && s.chunksConsumed + chunkCount <= s.maxApprovedChunks
             && BatchTotal(s, chunkCount) > U64_MAX) ==> r == Err(ArithmeticOverflow)
    ensures (&& chunkCount > 0 && !IsExpired(s, now)
             && s.sessionStart <= settlementTimestamp <= now
             && s.chunksConsumed + chunkCount <= s.maxApprovedChunks
             && BatchTotal(s, chunkCount) <= U64_MAX
             && balance < BatchTotal(s, chunkCount)) ==> r == Err(InsufficientBalance)
    ensures r.Err? ==> r.error != ArithmeticPanic
  {
    if chunkCount == 0 then Err(InvalidChunkCount)
    else if IsExpired(s, now) then Err(SessionExpired)
    else if settlementTimestamp < s.sessionStart then Err(SettlementTooOld)
    else if settlementTimestamp > now then Err(SettlementInFuture)
    else
      var newTotalChunks :- CheckedAddU32(s.chunksConsumed, chunkCount);
      if newTotalChunks > s.maxApprovedChunks then Err(SettlementExceedsApproval)
      else
        MulMonotonic(s.approvedPricePerChunk, chunkCount, U64_MAX, U32_MAX);
        var totalPayment :- CheckedMulU128(s.approvedPricePerChunk, chunkCount);
        var total :- TryIntoU64(totalPayment);
        if balance < total then Err(InsufficientBalance)
        else Ok(total)
  }

  /** The accounts settle_session names exist and satisfy its declared constraints. */
  predicate SettleAccountsReady(w: World, owner: Pubkey, signer: Pubkey, videoId: VideoId)
  {
    var key := SessionKey(owner, videoId);
    && key in w.sessions && videoId in w.videos && videoId in w.earnings && w.platform.Some?
    && w.sessions[key].viewer == signer && w.sessions[key].video == videoId
    && w.videos[videoId].isActive
    && w.earnings[videoId].creator == w.videos[videoId].creator
    && w.earnings[videoId].video == videoId
  }

  /**
   * An admitted batch that nothing after the validations can stop: the fee
   * rate is at most 100%, the allowance covers the total, no recipient's
   * balance overflows and no running total overflows.
   */
  predicate SettlementCanComplete(w: World, owner: Pubkey, signer: Pubkey, videoId: VideoId,
                                  chunkCount: u32, settlementTimestamp: i64, now: i64)
  {
    && SettleAccountsReady(w, owner, signer, videoId)
    && var s := w.sessions[SessionKey(owner, videoId)];
       var v := w.videos[videoId];
       var p := w.platform.value;
       && SettlementAdmitted(s, BalanceOf(w.ledger, signer), chunkCount, settlementTimestamp, now)
       && p.platformFeeBasisPoints <= BASIS_POINTS
       && CanDistribute(w.ledger, signer, v.creator, p.authority, BatchTotal(s, chunkCount))
       && s.totalSpent + BatchTotal(s, chunkCount) <= U64_MAX
       && CountersHaveRoom(v, w.earnings[videoId], p, chunkCount, BatchTotal(s, chunkCount))
  }

  /**
   * Settles `chunkCount` chunks of the session stored under (`owner`, video),
   * signed by `signer`, which must be the session's viewer; the payment comes
   * out of the signer's balance.
   */
  function SettleSession(w: World, owner: Pubkey, signer: Pubkey, videoId: VideoId,
                         chunkCount: u32, settlementTimestamp: i64, now: i64)
    : (r: Result<Committed>)
    // Only the session's own viewer can settle it.
    ensures (&& SessionKey(owner, videoId) in w.sessions
             && w.sessions[SessionKey(owner, videoId)].viewer != signer) ==> r.Err?
    // Validation order: with its accounts in place, the first failing check decides the error.
    ensures SettleAccountsReady(w, owner, signer, videoId) ==>
              var c := CheckSettlement(w.sessions[SessionKey(owner, videoId)],
                                       BalanceOf(w.ledger, signer), chunkCount,
                                       settlementTimestamp, now);
              c.Err? ==> r == Err(c.error)
    // A batch goes through only when admitted.
    ensures r.Ok? ==>
              && SettleAccountsReady(w, owner, signer, videoId)
              && SettlementAdmitted(w.sessions[SessionKey(owner, videoId)],
                                    BalanceOf(w.ledger, signer), chunkCount,
                                    settlementTimestamp, now)
              && SessionKey(owner, videoId) in r.value.world.sessions
              && videoId in r.value.world.videos && videoId in r.value.world.earnings
              && r.value.world.platform.Some?
    // Conversely, an admitted batch with nothing left to overflow is settled.
    ensures (SettlementCanComplete(w, owner, signer, videoId, chunkCount, settlementTimestamp, now)
             ==> r.Ok?)
    // The session: the batch is counted and paid at the locked price; the
    // sequence marker stays, and the session is active again.
    ensures r.Ok? ==>
              var key := SessionKey(owner, videoId);
              var s := w.sessions[key];
              var s' := r.value.world.sessions[key];
              && s'.chunksConsumed == s.chunksConsumed + chunkCount
              && s'.chunksConsumed <= s'.maxApprovedChunks
              && s'.totalSpent == s.totalSpent + s.approvedPricePerChunk * chunkCount
              && s'.lastActivity == now
              && !IsInactive(s', now)
              && s'.lastPaidChunkIndex == s.lastPaidChunkIndex
              && s'.(chunksConsumed := s.chunksConsumed, totalSpent := s.totalSpent,
                     lastActivity := s.lastActivity) == s
              && r.value.world.sessions == w.sessions[key := s']
    // The split and the totals.
    ensures r.Ok? ==>
              var s := w.sessions[SessionKey(owner, videoId)];
              var v := w.videos[videoId];
              var e := w.earnings[videoId];
              var p := w.platform.value;
              var v' := r.value.world.videos[videoId];
              var e' := r.value.world.earnings[videoId];
              var p' := r.value.world.platform.value;
              var ev := r.value.event;
              var first := s.chunksConsumed == 0;
              && ev.SessionSettled?
              && ev.totalPayment == s.approvedPricePerChunk * chunkCount
              && ev.platformFee + ev.creatorAmount == ev.totalPayment
              && (p.platformFeeBasisPoints <= BASIS_POINTS ==>
                    ev.platformFee == ev.totalPayment * p.platformFeeBasisPoints / BASIS_POINTS)
              && v'.totalChunksServed == v.totalChunksServed + chunkCount
              && v'.totalSessions == v.totalSessions + SessionIncrement(first)
              && v'.(totalChunksServed := v.totalChunksServed, totalSessions := v.totalSessions) == v
              && e'.totalEarned == e.totalEarned + ev.creatorAmount
              && e'.totalChunksSold == e.totalChunksSold + chunkCount
              && e'.totalSessions == e.totalSessions + SessionIncrement(first)
              && p'.totalRevenue == p.totalRevenue + ev.platformFee
              && p'.(totalRevenue := p.totalRevenue) == p
              && r.value.world.videos == w.videos[videoId := v']
              && r.value.world.earnings == w.earnings[videoId := e']
    // The record.
    ensures r.Ok? ==>
              var s' := r.value.world.sessions[SessionKey(owner, videoId)];
              var ev := r.value.event;
              && ev.SessionSettled?
              && ev.chunkCount == chunkCount
              && ev.chunksConsumed == s'.chunksConsumed
              && ev.chunksRemaining == s'.maxApprovedChunks - s'.chunksConsumed
              && ev.settlementTimestamp == settlementTimestamp
              && ev.timestamp == now
    // The allowance: each part of the payment had to be covered by it, and only
    // the signer's can change.
    ensures r.Ok? ==>
              && AllowanceOf(w.ledger, signer) >= r.value.event.creatorAmount
              && AllowanceOf(w.ledger, signer) >= r.value.event.platformFee
              && forall o :: o != signer ==> AllowanceOf(r.value.world.ledger, o) == AllowanceOf(w.ledger, o)
    // The money: the signer pays the total out of balance and allowance.
    ensures r.Ok? && Distinct(signer, w.videos[videoId].creator, w.platform.value.authority) ==>
              var l := w.ledger;
              var l' := r.value.world.ledger;
              var ev := r.value.event;
              && BalanceOf(l', signer) == BalanceOf(l, signer) - ev.totalPayment
              && AllowanceOf(l', signer) == AllowanceOf(l, signer) - ev.totalPayment
              && BalanceOf(l', w.videos[videoId].creator)
                   == BalanceOf(l, w.videos[videoId].creator) + ev.creatorAmount
              && BalanceOf(l', w.platform.value.authority)
                   == BalanceOf(l, w.platform.value.authority) + ev.platformFee
  {
    var key := SessionKey(owner, videoId);
    var s :- LoadSession(w, key);
    var video :- LoadVideo(w, videoId);
    var earnings :- LoadEarnings(w, videoId);
    var platform :- LoadPlatform(w);
    if s.viewer != signer then Err(Unauthorized)
    else if s.video != videoId then Err(InvalidSession)
    else if !video.isActive then Err(VideoNotActive)
    else if earnings.creator != video.creator then Err(Unauthorized)
    else if earnings.video != videoId then Err(InvalidCreatorEarnings)
    else
      var total :- CheckSettlement(s, BalanceOf(w.ledger, signer), chunkCount,
                                   settlementTimestamp, now);
      var split :- SplitPayment(platform, total);
      var ledger' :- Distribute(w.ledger, signer, video.creator, platform.authority, split);
      var spent :- CheckedAddU64(s.totalSpent, total);
      var s' := s.(chunksConsumed := s.chunksConsumed + chunkCount, totalSpent := spent,
                   lastActivity := now);
      var totals :- CreditSale(video, earnings, platform, chunkCount, split,
                               s'.chunksConsumed == chunkCount);
      Ok(Committed(
           World(Some(totals.platform),
                 w.videos[videoId := totals.video],
                 w.earnings[videoId := totals.earnings],
                 w.sessions[key := s'],
                 ledger'),
           SessionSettled(s.viewer, videoId, chunkCount, total, split.fee, split.creatorAmount,
                          s'.chunksConsumed, s'.maxApprovedChunks - s'.chunksConsumed,
                          settlementTimestamp, now)))
  }

  /** A batch settlement keeps the world valid: in particular consumed stays within approved. */
  lemma SettleSessionPreservesValid(w: World, owner: Pubkey, signer: Pubkey, videoId: VideoId,
                                    chunkCount: u32, settlementTimestamp: i64, now: i64)
    requires Valid(w)
    ensures SettleSession(w, owner, signer, videoId, chunkCount, settlementTimestamp, now).Ok? ==>
              Valid(SettleSession(w, owner, signer, videoId, chunkCount, settlementTimestamp,
                                  now).value.world)
  {
    var r := SettleSession(w, owner, signer, videoId, chunkCount, settlementTimestamp, now);
    if r.Ok? {
      var key := SessionKey(owner, videoId);
      var v := w.videos[videoId];
      var v' := r.value.world.videos[videoId];
      assert SessionWellFormed(key, w.sessions[key], w.videos);
      assert VideoWellFormed(videoId, v) && v'.(totalChunksServed := v.totalChunksServed,
                                                totalSessions := v.totalSessions) == v;
      SaleKeepsValid(w, r.value.world, key);
    }
  }
}
