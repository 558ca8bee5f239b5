/**
 * revoke_streaming_delegate: the viewer withdraws the platform's allowance
 * over their tokens. The session is left as it is; only the allowance changes.
 */
module Revocation {
  import opened Results
  import opened Ints
  import opened State
  import opened Ledger
  import opened Events
  import opened Accounts

  function RevokeStreamingDelegate(w: World, viewer: Pubkey, videoId: VideoId, now: i64)
    : (r: Result<Committed>)
    ensures r.Ok? <==>
              && SessionKey(viewer, videoId) in w.sessions && videoId in w.videos
              && w.platform.Some?
              && w.sessions[SessionKey(viewer, videoId)].viewer == viewer
    ensures r.Err? ==> r.error in {AccountNotInitialized, ConstraintViolated}
    ensures r.Ok? ==> SessionKey(viewer, videoId) in w.sessions
    ensures r.Ok? ==>
              var s := w.sessions[SessionKey(viewer, videoId)];
              // Only the signer's own allowance goes, and it goes entirely.
              && r.value.world == w.(ledger := Revoke(w.ledger, viewer))
              && AllowanceOf(r.value.world.ledger, viewer) == 0
              && (forall o :: o != viewer ==>
                    AllowanceOf(r.value.world.ledger, o) == AllowanceOf(w.ledger, o))
              && (forall o :: BalanceOf(r.value.world.ledger, o) == BalanceOf(w.ledger, o))
              && r.value.event == DelegationRevoked(viewer, videoId, s.chunksConsumed,
                                                    s.totalSpent, now)
  {
    var s :- LoadSession(w, SessionKey(viewer, videoId));
    var _ :- LoadVideo(w, videoId);
    var _ :- LoadPlatform(w);
    if s.viewer != viewer then Err(ConstraintViolated)
    else
      Ok(Committed(w.(ledger := Revoke(w.ledger, viewer)),
                   DelegationRevoked(viewer, videoId, s.chunksConsumed, s.totalSpent, now)))
  }

  /** Revoking keeps the world valid. */
  lemma RevokePreservesValid(w: World, viewer: Pubkey, videoId: VideoId, now: i64)
    requires Valid(w)
    ensures var r := RevokeStreamingDelegate(w, viewer, videoId, now);
            r.Ok? ==> Valid(r.value.world)
  {
  }
}
