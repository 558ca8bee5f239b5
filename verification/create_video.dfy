/**
 * create_video: registers a video and its creator-earnings record under the
 * video's id, after checking the byte lengths of its text fields, its chunk
 * count and its price against the platform minimum.
 */
module VideoCreation {
  import opened Results
  import opened Ints
  import opened Constants
  import opened State
  import opened Events
  import opened Accounts

  /** The video create_video stores: active, with no sessions or served chunks yet. */
  function NewVideo(creator: Pubkey, videoId: VideoId, ipfsHash: Bytes, totalChunks: u32,
                    price: u64, title: Bytes, description: Bytes, now: i64): Video
  {
    Video(creator, videoId, ipfsHash, totalChunks, price, title, description, true, 0, 0, now)
  }

  /** The checks create_video makes of its arguments, in the order it makes them. */
  function CheckVideoArguments(videoId: VideoId, ipfsHash: Bytes, totalChunks: u32, price: u64,
                               title: Bytes, description: Bytes, minPrice: u64): (r: Result<()>)
    ensures r.Ok? <==>
              && |videoId| <= MAX_VIDEO_ID_LENGTH && |ipfsHash| <= MAX_IPFS_HASH_LENGTH
              && |title| <= MAX_TITLE_LENGTH && |description| <= MAX_DESCRIPTION_LENGTH
              && MIN_VIDEO_CHUNKS <= totalChunks <= MAX_TOTAL_CHUNKS
              && price >= minPrice
    ensures |videoId| > MAX_VIDEO_ID_LENGTH ==> r == Err(VideoIdTooLong)
    ensures |videoId| <= MAX_VIDEO_ID_LENGTH && |ipfsHash| > MAX_IPFS_HASH_LENGTH ==>
              r == Err(IpfsHashTooLong)
    ensures (&& |videoId| <= MAX_VIDEO_ID_LENGTH && |ipfsHash| <= MAX_IPFS_HASH_LENGTH
             && |title| > MAX_TITLE_LENGTH) ==> r == Err(TitleTooLong)
    ensures (&& |videoId| <= MAX_VIDEO_ID_LENGTH && |ipfsHash| <= MAX_IPFS_HASH_LENGTH
             && |title| <= MAX_TITLE_LENGTH && |description| > MAX_DESCRIPTION_LENGTH) ==>
              r == Err(DescriptionTooLong)
    ensures (&& |videoId| <= MAX_VIDEO_ID_LENGTH && |ipfsHash| <= MAX_IPFS_HASH_LENGTH
             && |title| <= MAX_TITLE_LENGTH && |description| <= MAX_DESCRIPTION_LENGTH
             && !(MIN_VIDEO_CHUNKS <= totalChunks <= MAX_TOTAL_CHUNKS)) ==>
              r == Err(TooManyChunks)
    ensures (&& |videoId| <= MAX_VIDEO_ID_LENGTH && |ipfsHash| <= MAX_IPFS_HASH_LENGTH
             && |title| <= MAX_TITLE_LENGTH && |description| <= MAX_DESCRIPTION_LENGTH
             && MIN_VIDEO_CHUNKS <= totalChunks <= MAX_TOTAL_CHUNKS
             && price < minPrice) ==> r == Err(PriceTooLow)
  {
    if |videoId| > MAX_VIDEO_ID_LENGTH then Err(VideoIdTooLong)
    else if |ipfsHash| > MAX_IPFS_HASH_LENGTH then Err(IpfsHashTooLong)
    else if |title| > MAX_TITLE_LENGTH then Err(TitleTooLong)
    else if |description| > MAX_DESCRIPTION_LENGTH then Err(DescriptionTooLong)
    else if !(MIN_VIDEO_CHUNKS <= totalChunks <= MAX_TOTAL_CHUNKS) then Err(TooManyChunks)
    else if price < minPrice then Err(PriceTooLow)
    else Ok(())
  }

  function CreateVideo(w: World, creator: Pubkey, videoId: VideoId, ipfsHash: Bytes,
                       totalChunks: u32, price: u64, title: Bytes, description: Bytes,
                       now: i64): (r: Result<Committed>)
    // Both accounts are created here, so an id already in use is refused.
    ensures videoId in w.videos || videoId in w.earnings ==> r == Err(AccountAlreadyInUse)
    ensures (&& videoId !in w.videos && videoId !in w.earnings && w.platform.Some?) ==>
              (CheckVideoArguments(videoId, ipfsHash, totalChunks, price, title, description,
                                   w.platform.value.minPricePerChunk).Err? ==>
                 r == Err(CheckVideoArguments(videoId, ipfsHash, totalChunks, price, title,
                                              description, w.platform.value.minPricePerChunk).error))
    ensures r.Ok? <==>
              && videoId !in w.videos && videoId !in w.earnings && w.platform.Some?
              && CheckVideoArguments(videoId, ipfsHash, totalChunks, price, title, description,
                                     w.platform.value.minPricePerChunk).Ok?
              && w.platform.value.totalVideos < U64_MAX
    // What is stored passes the video's own validation, and is the only change.
    ensures r.Ok? ==>
              && videoId in r.value.world.videos && videoId in r.value.world.earnings
              && w.platform.Some? && r.value.world.platform.Some?
    ensures r.Ok? ==>
              var v := r.value.world.videos[videoId];
              && v == NewVideo(creator, videoId, ipfsHash, totalChunks, price, title, description, now)
              && ValidateVideo(v).Ok?
              && VideoWellFormed(videoId, v)
              && r.value.world.videos == w.videos[videoId := v]
              && r.value.world.earnings == w.earnings[videoId := CreatorEarnings(creator, videoId, 0, 0, 0)]
              && r.value.world.platform.value.totalVideos == w.platform.value.totalVideos + 1
              && r.value.world.platform.value.(totalVideos := w.platform.value.totalVideos)
                   == w.platform.value
              && r.value.world.sessions == w.sessions
              && r.value.world.ledger == w.ledger
              && r.value.event == VideoCreated(videoId, creator, ipfsHash, totalChunks, price, title, now)
  {
    if videoId in w.videos || videoId in w.earnings then Err(AccountAlreadyInUse)
    else
      var platform :- LoadPlatform(w);
      var _ :- CheckVideoArguments(videoId, ipfsHash, totalChunks, price, title, description,
                                   platform.minPricePerChunk);
      var video := NewVideo(creator, videoId, ipfsHash, totalChunks, price, title, description, now);
      var earnings := CreatorEarnings(creator, videoId, 0, 0, 0);
      var totalVideos :- CheckedAddU64(platform.totalVideos, 1);
      Ok(Committed(
           w.(platform := Some(platform.(totalVideos := totalVideos)),
              videos := w.videos[videoId := video],
              earnings := w.earnings[videoId := earnings]),
           VideoCreated(videoId, creator, ipfsHash, totalChunks, price, title, now)))
  }

  /** Registering a video keeps the world valid. */
  lemma CreateVideoPreservesValid(w: World, creator: Pubkey, videoId: VideoId, ipfsHash: Bytes,
                                  totalChunks: u32, price: u64, title: Bytes, description: Bytes,
                                  now: i64)
    requires Valid(w)
    ensures var r := CreateVideo(w, creator, videoId, ipfsHash, totalChunks, price, title,
                                 description, now);
            r.Ok? ==> Valid(r.value.world)
  {
    var r := CreateVideo(w, creator, videoId, ipfsHash, totalChunks, price, title, description, now);
    if r.Ok? {
      SessionsSurviveVideoChange(w.sessions, w.videos, r.value.world.videos);
    }
  }

  /** A video id can be registered once: a second registration under it fails. */
  lemma VideoIdRegisteredOnce(w: World, creator: Pubkey, videoId: VideoId, ipfsHash: Bytes,
                              totalChunks: u32, price: u64, title: Bytes, description: Bytes,
                              now: i64, creator2: Pubkey, ipfsHash2: Bytes, totalChunks2: u32,
                              price2: u64, title2: Bytes, description2: Bytes, now2: i64)
    requires CreateVideo(w, creator, videoId, ipfsHash, totalChunks, price, title, description,
                         now).Ok?
    ensures CreateVideo(CreateVideo(w, creator, videoId, ipfsHash, totalChunks, price, title,
                                    description, now).value.world,
                        creator2, videoId, ipfsHash2, totalChunks2, price2, title2, description2,
                        now2) == Err(AccountAlreadyInUse)
  {
  }
}
