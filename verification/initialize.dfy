/**
 * initialize_platform: creates the single platform record. Whoever calls it
 * first becomes the authority that receives platform fees; a second call fails
 * because the record already exists.
 */
module PlatformInit {
  import opened Results
  import opened Ints
  import opened Constants
  import opened State
  import opened Events
  import opened Accounts

  function InitializePlatform(w: World, authority: Pubkey, tokenMint: Pubkey, feeBps: u16,
                              minPrice: u64, now: i64): (r: Result<Committed>)
    ensures w.platform.Some? ==> r == Err(AccountAlreadyInUse)
    ensures w.platform.None? && feeBps > MAX_PLATFORM_FEE_BPS ==> r == Err(PlatformFeeTooHigh)
    ensures r.Ok? <==> w.platform.None? && feeBps <= MAX_PLATFORM_FEE_BPS
    ensures r.Ok? ==>
              && r.value.world == w.(platform := Some(Platform(authority, tokenMint, feeBps,
                                                               minPrice, 0, 0, 0)))
              && PlatformWellFormed(r.value.world.platform.value)
              && r.value.event == PlatformInitialized(tokenMint, feeBps, minPrice, now)
  {
    if w.platform.Some? then Err(AccountAlreadyInUse)
    else if feeBps as int > MAX_PLATFORM_FEE_BPS then Err(PlatformFeeTooHigh)
    else
      Ok(Committed(w.(platform := Some(Platform(authority, tokenMint, feeBps, minPrice, 0, 0, 0))),
                   PlatformInitialized(tokenMint, feeBps, minPrice, now)))
  }

  /** Initialization keeps the world valid. */
  lemma InitializePreservesValid(w: World, authority: Pubkey, tokenMint: Pubkey, feeBps: u16,
                                 minPrice: u64, now: i64)
    requires Valid(w)
    ensures var r := InitializePlatform(w, authority, tokenMint, feeBps, minPrice, now);
            r.Ok? ==> Valid(r.value.world)
  {
  }

  /** The first initialization fixes the authority: no later call can replace it. */
  lemma AuthorityFixedByFirstCaller(w: World, authority: Pubkey, tokenMint: Pubkey, feeBps: u16,
                                    minPrice: u64, now: i64, other: Pubkey, tokenMint2: Pubkey,
                                    feeBps2: u16, minPrice2: u64, now2: i64)
    requires InitializePlatform(w, authority, tokenMint, feeBps, minPrice, now).Ok?
    ensures var w1 := InitializePlatform(w, authority, tokenMint, feeBps, minPrice, now).value.world;
            && w1.platform.value.authority == authority
            && InitializePlatform(w1, other, tokenMint2, feeBps2, minPrice2, now2)
                 == Err(AccountAlreadyInUse)
  {
  }
}
