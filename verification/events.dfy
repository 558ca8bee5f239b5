/** The records each successful instruction emits (events.rs). */
module Events {
  import opened Results
  import opened Ints
  import opened State

  datatype Event =
    | PlatformInitialized(tokenMint: Pubkey, platformFeeBasisPoints: u16,
                          minPricePerChunk: u64, timestamp: i64)
    | VideoCreated(video: VideoId, creator: Pubkey, ipfsHash: Bytes, totalChunks: u32,
                   pricePerChunk: u64, title: Bytes, timestamp: i64)
    | VideoUpdated(video: VideoId, creator: Pubkey, newPrice: Option<u64>,
                   newActive: Option<bool>, timestamp: i64)
    | DelegationApproved(viewer: Pubkey, video: VideoId, maxApprovedChunks: u32,
                         lockedPricePerChunk: u64, isReapproval: bool, timestamp: i64)
    | ChunkPaid(viewer: Pubkey, video: VideoId, creator: Pubkey, chunkIndex: u32,
                paymentSequence: u32, amountPaid: u64, platformFee: u64,
                creatorAmount: u64, chunksRemaining: u32, timestamp: i64)
    | DelegationRevoked(viewer: Pubkey, video: VideoId, chunksConsumed: u32,
                        totalSpent: u64, timestamp: i64)
    | SessionClosed(viewer: Pubkey, video: VideoId, chunksConsumed: u32,
                    totalSpent: u64, timestamp: i64)
    | SessionSettled(viewer: Pubkey, video: VideoId, chunkCount: u32, totalPayment: u64,
                     platformFee: u64, creatorAmount: u64, chunksConsumed: u32,
                     chunksRemaining: u32, settlementTimestamp: i64, timestamp: i64)
}
