/**
 * update_video: the video's creator changes its price, its active flag, or
 * both. A new price must meet the platform minimum; nothing else about the
 * video, and nothing else in the world, changes.
 */
module VideoUpdate {
  import opened Results
  import opened Ints
  import opened State
  import opened Events
  import opened Accounts

  /** The video with the provided fields replaced and the absent ones kept. */
  function ApplyUpdate(v: Video, newPrice: Option<u64>, newActive: Option<bool>): Video
  {
    v.(pricePerChunk := if newPrice.Some? then newPrice.value else v.pricePerChunk,
       isActive := if newActive.Some? then newActive.value else v.isActive)
  }

  function UpdateVideo(w: World, signer: Pubkey, videoId: VideoId, newPrice: Option<u64>,
                       newActive: Option<bool>, now: i64): (r: Result<Committed>)
    // Only the video's creator may update it.
    ensures videoId in w.videos && w.platform.Some? && w.videos[videoId].creator != signer ==>
              r == Err(Unauthorized)
    ensures (&& videoId in w.videos && w.platform.Some? && w.videos[videoId].creator == signer
             && newPrice.None? && newActive.None?) ==> r == Err(NoUpdateProvided)
    // A new price below the platform minimum is refused.
    ensures (&& videoId in w.videos && w.platform.Some? && w.videos[videoId].creator == signer
             && newPrice.Some? && newPrice.value < w.platform.value.minPricePerChunk) ==>
              r == Err(PriceTooLow)
    ensures r.Ok? <==>
              && videoId in w.videos && w.platform.Some?
              && w.videos[videoId].creator == signer
              && (newPrice.Some? || newActive.Some?)
              && (newPrice.Some? ==> newPrice.value >= w.platform.value.minPricePerChunk)
    ensures r.Err? ==>
              r.error in {AccountNotInitialized, Unauthorized, NoUpdateProvided, PriceTooLow}
    ensures r.Ok? ==> videoId in w.videos && videoId in r.value.world.videos
    ensures r.Ok? ==>
              var v := w.videos[videoId];
              var v' := r.value.world.videos[videoId];
              // A provided field takes its new value; an absent one keeps the old.
              && v'.pricePerChunk == (if newPrice.Some? then newPrice.value else v.pricePerChunk)
              && v'.isActive == (if newActive.Some? then newActive.value else v.isActive)
              && v'.(pricePerChunk := v.pricePerChunk, isActive := v.isActive) == v
              && r.value.world == w.(videos := w.videos[videoId := v'])
              && r.value.event == VideoUpdated(videoId, signer, newPrice, newActive, now)
  {
    var video :- LoadVideo(w, videoId);
    var platform :- LoadPlatform(w);
    if video.creator != signer then Err(Unauthorized)
    else if newPrice.None? && newActive.None? then Err(NoUpdateProvided)
    else if newPrice.Some? && newPrice.value < platform.minPricePerChunk then Err(PriceTooLow)
    else
      Ok(Committed(w.(videos := w.videos[videoId := ApplyUpdate(video, newPrice, newActive)]),
                   VideoUpdated(videoId, signer, newPrice, newActive, now)))
  }

  /** Updating a video keeps the world valid: its id, limits and chunk count are untouched. */
  lemma UpdateVideoPreservesValid(w: World, signer: Pubkey, videoId: VideoId,
                                  newPrice: Option<u64>, newActive: Option<bool>, now: i64)
    requires Valid(w)
    ensures var r := UpdateVideo(w, signer, videoId, newPrice, newActive, now);
            r.Ok? ==> Valid(r.value.world)
  {
    var r := UpdateVideo(w, signer, videoId, newPrice, newActive, now);
    if r.Ok? {
      SessionsSurviveVideoChange(w.sessions, w.videos, r.value.world.videos);
    }
  }

  /** Repeating an update that succeeded leaves the world as the first one left it. */
  lemma UpdateVideoIdempotent(w: World, signer: Pubkey, videoId: VideoId,
                              newPrice: Option<u64>, newActive: Option<bool>, now: i64, now2: i64)
    requires UpdateVideo(w, signer, videoId, newPrice, newActive, now).Ok?
    ensures var w1 := UpdateVideo(w, signer, videoId, newPrice, newActive, now).value.world;
            && UpdateVideo(w1, signer, videoId, newPrice, newActive, now2).Ok?
            && UpdateVideo(w1, signer, videoId, newPrice, newActive, now2).value.world == w1
  {
  }
}
