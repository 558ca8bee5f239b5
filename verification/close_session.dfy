/**
 * close_viewer_session: the viewer deletes their session for a video. Counters
 * and the token allowance are untouched; a later approval starts a new session.
 */
module SessionClosing {
  import opened Results
  import opened Ints
  import opened State
  import opened Events
  import opened Accounts

  function CloseViewerSession(w: World, viewer: Pubkey, videoId: VideoId, now: i64)
    : (r: Result<Committed>)
    ensures r.Ok? <==>
              && SessionKey(viewer, videoId) in w.sessions && videoId in w.videos
              && w.sessions[SessionKey(viewer, videoId)].viewer == viewer
    ensures r.Err? ==> r.error in {AccountNotInitialized, ConstraintViolated}
    ensures r.Ok? ==> SessionKey(viewer, videoId) in w.sessions
    ensures r.Ok? ==>
              var s := w.sessions[SessionKey(viewer, videoId)];
              // Exactly the signer's session for this video disappears.
              && SessionKey(viewer, videoId) !in r.value.world.sessions
              && (forall k :: k != SessionKey(viewer, videoId) ==>
                    (k in r.value.world.sessions <==> k in w.sessions))
              && r.value.world == w.(sessions := w.sessions - {SessionKey(viewer, videoId)})
              && r.value.event == SessionClosed(viewer, videoId, s.chunksConsumed, s.totalSpent, now)
  {
    var key := SessionKey(viewer, videoId);
    var s :- LoadSession(w, key);
    var _ :- LoadVideo(w, videoId);
    if s.viewer != viewer then Err(ConstraintViolated)
    else
      Ok(Committed(w.(sessions := w.sessions - {key}),
                   SessionClosed(viewer, videoId, s.chunksConsumed, s.totalSpent, now)))
  }

  /** Closing keeps the world valid. */
  lemma ClosePreservesValid(w: World, viewer: Pubkey, videoId: VideoId, now: i64)
    requires Valid(w)
    ensures var r := CloseViewerSession(w, viewer, videoId, now);
            r.Ok? ==> Valid(r.value.world)
  {
  }
}
