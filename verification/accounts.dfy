/**
 * The program's accounts as one value: the platform singleton, videos and
 * creator earnings keyed by video id, viewer sessions keyed by the
 * (viewer, video) pair their address is derived from, and the token ledger.
 * Also the invariant every reachable world satisfies.
 */
module Accounts {
  import opened Results
  import opened Ints
  import opened Constants
  import opened State
  import opened Ledger
  import opened Events

  /** A session's address is derived from its viewer and its video. */
  datatype SessionKey = SessionKey(viewer: Pubkey, video: VideoId)

  datatype World = World(
    platform: Option<Platform>,
    videos: map<VideoId, Video>,
    earnings: map<VideoId, CreatorEarnings>,
    sessions: map<SessionKey, ViewerSession>,
    ledger: Ledger)

  /** What a successful instruction commits: the new accounts and the record it emits. */
  datatype Committed = Committed(world: World, event: Event)

  /** The world before the platform is initialized; token balances are given. */
  function Genesis(l: Ledger): World
  {
    World(None, map[], map[], map[], l)
  }

  // ---------------------------------------------------------------------------
  // Account loading: an instruction naming an account that does not exist fails.
  // ---------------------------------------------------------------------------

  function LoadPlatform(w: World): (r: Result<Platform>)
    ensures r.Ok? <==> w.platform.Some?
    ensures r.Ok? ==> r.value == w.platform.value
    ensures r.Err? ==> r.error == AccountNotInitialized
  {
    if w.platform.Some? then Ok(w.platform.value) else Err(AccountNotInitialized)
  }

  function LoadVideo(w: World, id: VideoId): (r: Result<Video>)
    ensures r.Ok? <==> id in w.videos
    ensures r.Ok? ==> r.value == w.videos[id]
    ensures r.Err? ==> r.error == AccountNotInitialized
  {
    if id in w.videos then Ok(w.videos[id]) else Err(AccountNotInitialized)
  }

  function LoadEarnings(w: World, id: VideoId): (r: Result<CreatorEarnings>)
    ensures r.Ok? <==> id in w.earnings
    ensures r.Ok? ==> r.value == w.earnings[id]
    ensures r.Err? ==> r.error == AccountNotInitialized
  {
    if id in w.earnings then Ok(w.earnings[id]) else Err(AccountNotInitialized)
  }

  function LoadSession(w: World, key: SessionKey): (r: Result<ViewerSession>)
    ensures r.Ok? <==> key in w.sessions
    ensures r.Ok? ==> r.value == w.sessions[key]
    ensures r.Err? ==> r.error == AccountNotInitialized
  {
    if key in w.sessions then Ok(w.sessions[key]) else Err(AccountNotInitialized)
  }

  // ---------------------------------------------------------------------------
  // The invariant of reachable worlds
  // ---------------------------------------------------------------------------

  /** The platform's fee rate never exceeds the administrative maximum (hence 100%). */
  predicate PlatformWellFormed(p: Platform)
  {
    p.platformFeeBasisPoints <= MAX_PLATFORM_FEE_BPS
  }

  /** A video is stored under its own id, within the limits create_video enforces. */
  predicate VideoWellFormed(id: VideoId, v: Video)
  {
    && v.videoId == id
    && MIN_VIDEO_CHUNKS <= v.totalChunks
    && WithinVideoLimits(v)
  }

  /** An earnings record belongs to the video stored under the same id, and to its creator. */
  predicate EarningsWellFormed(id: VideoId, e: CreatorEarnings, videos: map<VideoId, Video>)
  {
    && e.video == id
    && id in videos
    && e.creator == videos[id].creator
  }

  /**
   * A session is stored under its own viewer and video, for a registered video;
   * it never consumed more than was approved, and its last paid index is a
   * chunk of that video.
   */
  predicate SessionWellFormed(key: SessionKey, s: ViewerSession, videos: map<VideoId, Video>)
  {
    && s.viewer == key.viewer
    && s.video == key.video
    && key.video in videos
    && s.chunksConsumed <= s.maxApprovedChunks
    && (s.lastPaidChunkIndex.Some? ==> s.lastPaidChunkIndex.value < videos[key.video].totalChunks)
  }

  predicate Valid(w: World)
  {
    && (w.platform.Some? ==> PlatformWellFormed(w.platform.value))
    && w.earnings.Keys == w.videos.Keys
    && (forall id | id in w.videos :: VideoWellFormed(id, w.videos[id]))
    && (forall id | id in w.earnings :: EarningsWellFormed(id, w.earnings[id], w.videos))
    && (forall k | k in w.sessions :: SessionWellFormed(k, w.sessions[k], w.videos))
  }

  /** The world before initialization satisfies the invariant, whatever the token balances. */
  lemma GenesisValid(l: Ledger)
    ensures Valid(Genesis(l))
  {
  }

  /**
   * Sessions stay well formed when videos are only added or changed in fields
   * other than their chunk count.
   */
  lemma SessionsSurviveVideoChange(sessions: map<SessionKey, ViewerSession>,
                                   videos: map<VideoId, Video>, videos': map<VideoId, Video>)
    requires forall k | k in sessions :: SessionWellFormed(k, sessions[k], videos)
    requires videos.Keys <= videos'.Keys
    requires forall id | id in videos :: videos'[id].totalChunks == videos[id].totalChunks
    ensures forall k | k in sessions :: SessionWellFormed(k, sessions[k], videos')
  {
  }

  /**
   * A sale keeps the world valid: it rewrites one session, the video it is for
   * and that video's earnings, and the platform, keeping each well formed, the
   * chunk count and the creator of the video, and the owner of the earnings.
   */
  lemma SaleKeepsValid(w: World, w': World, key: SessionKey)
    requires Valid(w)
    requires key in w.sessions && key in w'.sessions
    requires w'.sessions == w.sessions[key := w'.sessions[key]]
    requires SessionWellFormed(key, w'.sessions[key], w.videos)
    requires key.video in w'.videos && key.video in w'.earnings
    requires w'.videos == w.videos[key.video := w'.videos[key.video]]
    requires w'.earnings == w.earnings[key.video := w'.earnings[key.video]]
    requires w'.videos[key.video].totalChunks == w.videos[key.video].totalChunks
    requires VideoWellFormed(key.video, w'.videos[key.video])
    requires EarningsWellFormed(key.video, w'.earnings[key.video], w'.videos)
    requires w'.platform.Some? && PlatformWellFormed(w'.platform.value)
    ensures Valid(w')
  {
    SessionsSurviveVideoChange(w.sessions, w.videos, w'.videos);
    forall k | k in w'.sessions
      ensures SessionWellFormed(k, w'.sessions[k], w'.videos)
    {
      if k != key {
        assert w'.sessions[k] == w.sessions[k];
      }
    }
    forall id | id in w'.earnings
      ensures EarningsWellFormed(id, w'.earnings[id], w'.videos)
    {
      if id != key.video {
        assert w'.earnings[id] == w.earnings[id];
        assert w'.videos[id] == w.videos[id];
      }
    }
  }
}
