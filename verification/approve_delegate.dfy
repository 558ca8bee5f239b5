/**
 * approve_streaming_delegate: opens a viewer's session for a video, or extends
 * its chunk ceiling, and grants the platform an allowance for everything still
 * outstanding on it. The token allowance is replaced, not added to, so the
 * amount granted is the total outstanding rather than the increment.
 */
module Delegation {
  import opened Results
  import opened Ints
  import opened Constants
  import opened State
  import opened Ledger
  import opened Events
  import opened Accounts

  /** The session an approval starts from: the stored one, or a freshly allocated one. */
  function CurrentSession(w: World, key: SessionKey): ViewerSession
  {
    if key in w.sessions then w.sessions[key] else ZERO_SESSION
  }

  /** A session whose opening time is zero is (re)initialized by the approval. */
  predicate IsNewSession(w: World, key: SessionKey)
  {
    CurrentSession(w, key).sessionStart == 0
  }

  /** The accounts approve_streaming_delegate names exist and satisfy its declared constraints. */
  predicate ApproveAccountsReady(w: World, videoId: VideoId)
  {
    && videoId in w.videos && videoId in w.earnings && w.platform.Some?
    && w.videos[videoId].isActive
    && w.earnings[videoId].creator == w.videos[videoId].creator
    && w.earnings[videoId].video == videoId
  }

  /** A request for a positive number of chunks, at most the per-approval cap. */
  predicate ValidChunkRequest(maxChunks: u32)
  {
    0 < maxChunks <= MAX_CHUNKS_PER_APPROVAL
  }

  /**
   * The allowance an approval grants: the video's current price times the
   * chunks that will remain unconsumed once the ceiling is raised. For a new
   * session this is just the requested chunks.
   */
  function OutstandingAmount(price: u64, ceiling: int, consumed: int): int
  {
    price * (ceiling - consumed)
  }

  /**
   * Opens a session at the video's current price and grants the platform
   * `price * maxChunks`; counts one more platform session.
   */
  function OpenSession(w: World, p: Platform, v: Video, viewer: Pubkey, videoId: VideoId,
                       maxChunks: u32, now: i64): (r: Result<Committed>)
    requires ValidChunkRequest(maxChunks)
    ensures r.Ok? <==>
              && p.totalSessions < U64_MAX
              && OutstandingAmount(v.pricePerChunk, maxChunks, 0) <= U64_MAX
              && OutstandingAmount(v.pricePerChunk, maxChunks, 0) <= BalanceOf(w.ledger, viewer)
    ensures (&& p.totalSessions < U64_MAX
             && OutstandingAmount(v.pricePerChunk, maxChunks, 0) <= U64_MAX
             && OutstandingAmount(v.pricePerChunk, maxChunks, 0) > BalanceOf(w.ledger, viewer)) ==>
              r == Err(InsufficientBalanceForApproval)
    // The session count and the narrowing of the allowance to 64 bits are checked.
    ensures (p.totalSessions == U64_MAX || OutstandingAmount(v.pricePerChunk, maxChunks, 0) > U64_MAX)
              ==> r == Err(ArithmeticOverflow)
    ensures r.Err? ==> r.error in {ArithmeticOverflow, InsufficientBalanceForApproval}
    ensures r.Ok? ==> SessionKey(viewer, videoId) in r.value.world.sessions
    ensures r.Ok? ==>
              var s' := r.value.world.sessions[SessionKey(viewer, videoId)];
              && s' == ViewerSession(viewer, videoId, maxChunks, 0, 0, v.pricePerChunk, None, now, now)
              && r.value.world.platform == Some(p.(totalSessions := p.totalSessions + 1))
              && AllowanceOf(r.value.world.ledger, viewer) == v.pricePerChunk * maxChunks
              && r.value.event == DelegationApproved(viewer, videoId, maxChunks, v.pricePerChunk,
                                                     false, now)
  {
    var s' := ViewerSession(viewer, videoId, maxChunks, 0, 0, v.pricePerChunk, None, now, now);
    MulMonotonic(v.pricePerChunk, maxChunks, U64_MAX, U32_MAX);
    var approval :- CheckedMulU128(v.pricePerChunk, maxChunks);
    var totalSessions :- CheckedAddU64(p.totalSessions, 1);
    var amount :- TryIntoU64(approval);
    if BalanceOf(w.ledger, viewer) < amount then Err(InsufficientBalanceForApproval)
    else
      Ok(Committed(
           w.(platform := Some(p.(totalSessions := totalSessions)),
              sessions := w.sessions[SessionKey(viewer, videoId) := s'],
              ledger := Approve(w.ledger, viewer, amount)),
           DelegationApproved(viewer, videoId, maxChunks, v.pricePerChunk, false, now)))
  }

  /**
   * Re-approves a live session: raises its ceiling by `maxChunks` and grants
   * the platform the video's *current* price times everything now outstanding.
   * The locked price is not touched. An expired or inactive session is refused.
   */
  function ExtendSession(w: World, v: Video, s: ViewerSession, key: SessionKey,
                         maxChunks: u32, now: i64): (r: Result<Committed>)
    requires ValidChunkRequest(maxChunks)
    ensures IsExpired(s, now) ==> r == Err(SessionExpired)
    ensures !IsExpired(s, now) && IsInactive(s, now) ==> r == Err(SessionInactive)
    // The raised ceiling is a checked addition.
    ensures (&& !IsExpired(s, now) && !IsInactive(s, now)
             && s.maxApprovedChunks + maxChunks > U32_MAX) ==> r == Err(ArithmeticOverflow)
    // The outstanding count is an unchecked subtraction.
    ensures (&& !IsExpired(s, now) && !IsInactive(s, now)
             && s.maxApprovedChunks + maxChunks <= U32_MAX
             && s.chunksConsumed > s.maxApprovedChunks + maxChunks) ==> r == Err(ArithmeticPanic)
    ensures r.Err? && r.error == ArithmeticPanic ==>
              s.chunksConsumed > s.maxApprovedChunks + maxChunks
    // The allowance is narrowed to 64 bits, checked.
    ensures (&& !IsExpired(s, now) && !IsInactive(s, now)
             && s.maxApprovedChunks + maxChunks <= U32_MAX
             && s.chunksConsumed <= s.maxApprovedChunks + maxChunks
             && OutstandingAmount(v.pricePerChunk, s.maxApprovedChunks + maxChunks, s.chunksConsumed)
                  > U64_MAX) ==> r == Err(ArithmeticOverflow)
    // A live session is re-approved exactly when the raised ceiling fits, covers
    // what is consumed, and the viewer's balance covers what is outstanding.
    ensures r.Ok? <==>
              && !IsExpired(s, now) && !IsInactive(s, now)
              && s.maxApprovedChunks + maxChunks <= U32_MAX
              && s.chunksConsumed <= s.maxApprovedChunks + maxChunks
              && OutstandingAmount(v.pricePerChunk, s.maxApprovedChunks + maxChunks, s.chunksConsumed)
                   <= U64_MAX
              && OutstandingAmount(v.pricePerChunk, s.maxApprovedChunks + maxChunks, s.chunksConsumed)
                   <= BalanceOf(w.ledger, key.viewer)
    ensures (&& !IsExpired(s, now) && !IsInactive(s, now)
             && s.maxApprovedChunks + maxChunks <= U32_MAX
             && s.chunksConsumed <= s.maxApprovedChunks + maxChunks
             && OutstandingAmount(v.pricePerChunk, s.maxApprovedChunks + maxChunks, s.chunksConsumed)
                  <= U64_MAX
             && OutstandingAmount(v.pricePerChunk, s.maxApprovedChunks + maxChunks, s.chunksConsumed)
                  > BalanceOf(w.ledger, key.viewer)) ==> r == Err(InsufficientBalanceForApproval)
    ensures r.Ok? ==> key in r.value.world.sessions
    ensures r.Ok? ==>
              var s' := r.value.world.sessions[key];
              && s'.maxApprovedChunks == s.maxApprovedChunks + maxChunks
              && s'.lastActivity == now
              && s'.(maxApprovedChunks := s.maxApprovedChunks, lastActivity := s.lastActivity) == s
              && r.value.world.platform == w.platform
              && AllowanceOf(r.value.world.ledger, key.viewer)
                   == v.pricePerChunk * (s'.maxApprovedChunks - s.chunksConsumed)
              && r.value.event == DelegationApproved(key.viewer, key.video, s'.maxApprovedChunks,
                                                     s.approvedPricePerChunk, true, now)
  {
    if IsExpired(s, now) then Err(SessionExpired)
    else if IsInactive(s, now) then Err(SessionInactive)
    else
      var newMax :- CheckedAddU32(s.maxApprovedChunks, maxChunks);
      // The subtraction is unchecked in the handler.
      if s.chunksConsumed > newMax then Err(ArithmeticPanic)
      else
        var remaining := newMax - s.chunksConsumed;
        MulMonotonic(v.pricePerChunk, remaining, U64_MAX, U32_MAX);
        var approval :- CheckedMulU128(v.pricePerChunk, remaining);
        var amount :- TryIntoU64(approval);
        if BalanceOf(w.ledger, key.viewer) < amount then Err(InsufficientBalanceForApproval)
        else
          var s' := s.(maxApprovedChunks := newMax, lastActivity := now);
          Ok(Committed(
               w.(sessions := w.sessions[key := s'],
                  ledger := Approve(w.ledger, key.viewer, amount)),
               DelegationApproved(key.viewer, key.video, newMax, s.approvedPricePerChunk, true, now)))
  }

  function ApproveStreamingDelegate(w: World, viewer: Pubkey, videoId: VideoId, maxChunks: u32,
                                    now: i64): (r: Result<Committed>)
    // The request size is checked before any state is read or changed.
    ensures ApproveAccountsReady(w, videoId) && !ValidChunkRequest(maxChunks) ==>
              r == Err(MaxChunksPerApprovalExceeded)
    ensures r.Ok? ==> ApproveAccountsReady(w, videoId) && ValidChunkRequest(maxChunks)
    // A new session or a re-approval, decided by the opening time alone.
    ensures (&& ApproveAccountsReady(w, videoId) && ValidChunkRequest(maxChunks)
             && IsNewSession(w, SessionKey(viewer, videoId))) ==>
              r == OpenSession(w, w.platform.value, w.videos[videoId], viewer, videoId,
                               maxChunks, now)
    ensures (&& ApproveAccountsReady(w, videoId) && ValidChunkRequest(maxChunks)
             && !IsNewSession(w, SessionKey(viewer, videoId))) ==>
              r == ExtendSession(w, w.videos[videoId], w.sessions[SessionKey(viewer, videoId)],
                                 SessionKey(viewer, videoId), maxChunks, now)
    // Only the platform total (new sessions only) changes among the counters.
    ensures r.Ok? ==>
              && r.value.world.platform.Some?
              && r.value.world.platform.value.totalSessions
                   == w.platform.value.totalSessions
                      + (if IsNewSession(w, SessionKey(viewer, videoId)) then 1 else 0)
              && r.value.world.platform.value.(totalSessions := w.platform.value.totalSessions)
                   == w.platform.value
              && r.value.world.videos == w.videos
              && r.value.world.earnings == w.earnings
    // The allowance is replaced by the total outstanding at the current price.
    ensures r.Ok? ==>
              var key := SessionKey(viewer, videoId);
              var s := CurrentSession(w, key);
              var s' := r.value.world.sessions[key];
              && key in r.value.world.sessions
              && r.value.world.sessions == w.sessions[key := s']
              && s'.chunksConsumed <= s'.maxApprovedChunks
              && AllowanceOf(r.value.world.ledger, viewer)
                   == OutstandingAmount(w.videos[videoId].pricePerChunk, s'.maxApprovedChunks,
                                        s'.chunksConsumed)
              && AllowanceOf(r.value.world.ledger, viewer) <= BalanceOf(w.ledger, viewer)
              && (forall o :: o != viewer ==>
                    AllowanceOf(r.value.world.ledger, o) == AllowanceOf(w.ledger, o))
              && (forall o :: BalanceOf(r.value.world.ledger, o) == BalanceOf(w.ledger, o))
  {
    var video :- LoadVideo(w, videoId);
    var earnings :- LoadEarnings(w, videoId);
    var platform :- LoadPlatform(w);
    if !video.isActive then Err(VideoNotActive)
    else if earnings.creator != video.creator then Err(Unauthorized)
    else if earnings.video != videoId then Err(InvalidCreatorEarnings)
    else if !ValidChunkRequest(maxChunks) then Err(MaxChunksPerApprovalExceeded)
    else
      var key := SessionKey(viewer, videoId);
      var s := CurrentSession(w, key);
      if s.sessionStart == 0 then OpenSession(w, platform, video, viewer, videoId, maxChunks, now)
      else ExtendSession(w, video, s, key, maxChunks, now)
  }

  /** An approval keeps the world valid. */
  lemma ApprovePreservesValid(w: World, viewer: Pubkey, videoId: VideoId, maxChunks: u32, now: i64)
    requires Valid(w)
    ensures ApproveStreamingDelegate(w, viewer, videoId, maxChunks, now).Ok? ==>
              Valid(ApproveStreamingDelegate(w, viewer, videoId, maxChunks, now).value.world)
  {
    var r := ApproveStreamingDelegate(w, viewer, videoId, maxChunks, now);
    if r.Ok? {
      var w' := r.value.world;
      var key := SessionKey(viewer, videoId);
      assert w'.videos == w.videos;
      forall k | k in w'.sessions
        ensures SessionWellFormed(k, w'.sessions[k], w'.videos)
      {
        if k != key {
          assert w'.sessions[k] == w.sessions[k];
        } else if !IsNewSession(w, key) {
          assert SessionWellFormed(key, w.sessions[key], w.videos);
        }
      }
    }
  }

  /** In a valid world the unchecked `max - consumed` of a re-approval never underflows. */
  lemma ApproveNeverPanics(w: World, viewer: Pubkey, videoId: VideoId, maxChunks: u32, now: i64)
    requires Valid(w)
    ensures ApproveStreamingDelegate(w, viewer, videoId, maxChunks, now) != Err(ArithmeticPanic)
  {
    var key := SessionKey(viewer, videoId);
    if key in w.sessions {
      assert SessionWellFormed(key, w.sessions[key], w.videos);
    }
  }
}
