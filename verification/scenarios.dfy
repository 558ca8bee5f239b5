/**
 * Worked examples: concrete runs of the instruction handlers with the
 * numbers a reader can check by hand.
 */
module Scenarios {
  import opened Results
  import opened Ints
  import opened Constants
  import opened State
  import opened Ledger
  import opened Events
  import opened Accounts
  import opened PlatformInit
  import opened VideoCreation
  import opened Delegation
  import opened ChunkPayment
  import opened BatchSettlement
  import opened Program

  const AUTHORITY: Pubkey := 1
  const MINT: Pubkey := 2
  const CREATOR: Pubkey := 3
  const VIEWER: Pubkey := 4
  const CLIP: VideoId := [0x63, 0x6c, 0x69, 0x70]
  const KEY: SessionKey := SessionKey(VIEWER, CLIP)

  /**
   * A platform charging 250 basis points with one registered 100-chunk video
   * at `price` per chunk; the viewer holds `balance` and has granted the
   * platform `allowance`.
   */
  function Catalog(price: u64, createdAt: i64, balance: u64, allowance: u64,
                   sessions: map<SessionKey, ViewerSession>): World
  {
    World(Some(Platform(AUTHORITY, MINT, 250, 1, 1, 0, 0)),
          map[CLIP := Video(CREATOR, CLIP, [], 100, price, [], [], true, 0, 0, createdAt)],
          map[CLIP := CreatorEarnings(CREATOR, CLIP, 0, 0, 0)],
          sessions,
          Ledger(map[VIEWER := balance], map[VIEWER := allowance]))
  }

  /** Initializing the platform and registering the video produce that catalog. */
  lemma CatalogByInstructions(now: i64)
    ensures var l := Ledger(map[VIEWER := 50000], map[VIEWER := 0]);
            Run(Genesis(l), [Transaction(InitializePlatformIx(AUTHORITY, MINT, 250, 1), now),
                             Transaction(CreateVideoIx(CREATOR, CLIP, [], 100, 1000, [], []), now)])
              == Catalog(1000, now, 50000, 0, map[])
  {
    var l := Ledger(map[VIEWER := 50000], map[VIEWER := 0]);
    var t0 := Transaction(InitializePlatformIx(AUTHORITY, MINT, 250, 1), now);
    var t1 := Transaction(CreateVideoIx(CREATOR, CLIP, [], 100, 1000, [], []), now);
    assert [t0, t1][1..] == [t1];
    assert [t1][1..] == [];
    assert Run(Genesis(l), [t0, t1]) == Run(Apply(Genesis(l), t0), [t1]);
    assert Run(Apply(Genesis(l), t0), [t1]) == Apply(Apply(Genesis(l), t0), t1);
  }

  /** The catalog after the viewer approved 10 chunks at 1000: one session, allowance 10000. */
  function ApprovedTen(now: i64): World
  {
    var w := Catalog(1000, now, 50000, 10000,
                     map[KEY := ViewerSession(VIEWER, CLIP, 10, 0, 0, 1000, None, now, now)]);
    w.(platform := Some(w.platform.value.(totalSessions := 1)))
  }

  /** Approving 10 chunks at price 1000 opens the session and delegates 10000. */
  lemma ApproveTenScenario(now: i64)
    requires 0 < now < 1000
    ensures ApproveStreamingDelegate(Catalog(1000, now, 50000, 0, map[]), VIEWER, CLIP, 10, now)
              == Ok(Committed(ApprovedTen(now), DelegationApproved(VIEWER, CLIP, 10, 1000, false, now)))
  {
    var w0 := Catalog(1000, now, 50000, 0, map[]);
    var r := ApproveStreamingDelegate(w0, VIEWER, CLIP, 10, now);
    assert r == OpenSession(w0, w0.platform.value, w0.videos[CLIP], VIEWER, CLIP, 10, now);
    assert w0.ledger.allowances[VIEWER := 10000] == map[VIEWER := 10000];
    assert map[][KEY := ViewerSession(VIEWER, CLIP, 10, 0, 0, 1000, None, now, now)]
           == map[KEY := ViewerSession(VIEWER, CLIP, 10, 0, 0, 1000, None, now, now)];
  }

  /**
   * Price 1000 at 250 basis points: paying chunk 0 splits 1000 into a fee of
   * 25 and 975 for the creator, and records chunk 0 as the last paid.
   */
  lemma UnitPaymentScenario(now: i64)
    requires 0 < now < 1000
    ensures var p := PayForChunk(ApprovedTen(now), VIEWER, CLIP, 0, now);
            && p.Ok?
            && p.value.event.platformFee == 25
            && p.value.event.creatorAmount == 975
            && p.value.world.sessions[KEY].chunksConsumed == 1
            && p.value.world.sessions[KEY].lastPaidChunkIndex == Some(0)
  {
    var w1 := ApprovedTen(now);
    var s := w1.sessions[KEY];
    assert PaymentAdmitted(s, w1.videos[CLIP], BalanceOf(w1.ledger, VIEWER), 0, now);
    var p := PayForChunk(w1, VIEWER, CLIP, 0, now);
    assert p.Ok?;
    assert p.value.event.platformFee == 1000 * 250 / BASIS_POINTS == 25;
  }

  /** After chunk 0, paying chunk 2 skips chunk 1: it is refused and changes nothing. */
  lemma SkippedChunkScenario(now: i64)
    requires 0 < now < 1000
    ensures var p := PayForChunk(ApprovedTen(now), VIEWER, CLIP, 0, now);
            p.Ok? ==>
              && PayForChunk(p.value.world, VIEWER, CLIP, 2, now) == Err(OutOfSequenceChunk)
              && Apply(p.value.world, Transaction(PayForChunkIx(VIEWER, CLIP, 2), now))
                   == p.value.world
  {
    var p := PayForChunk(ApprovedTen(now), VIEWER, CLIP, 0, now);
    if p.Ok? {
      assert PayAccountsReady(p.value.world, VIEWER, CLIP);
      var s' := p.value.world.sessions[KEY];
      assert s'.lastActivity == now && s'.sessionStart == now;
      assert s'.lastPaidChunkIndex == Some(0);
    }
  }

  /**
   * A session with ceiling 100 that has consumed 40 at a locked price of
   * 2000: settling 50 more charges 100000, of which 2500 is the fee and 97500
   * the creator's, leaving 90 consumed; settling 20 after that would pass the
   * ceiling.
   */
  lemma BatchSettlementScenario(start: i64, now: i64)
    requires 0 < start <= now < start + 1000
    ensures var s := ViewerSession(VIEWER, CLIP, 100, 40, 80000, 2000, None, start, start);
            var w0 := Catalog(2000, start, 1000000, 120000, map[KEY := s]);
            var r := SettleSession(w0, VIEWER, VIEWER, CLIP, 50, now, now);
            && r.Ok?
            && r.value.event.totalPayment == 100000
            && r.value.event.platformFee == 2500
            && r.value.event.creatorAmount == 97500
            && r.value.world.sessions[KEY].chunksConsumed == 90
            && SettleSession(r.value.world, VIEWER, VIEWER, CLIP, 20, now, now)
                 == Err(SettlementExceedsApproval)
  {
    var s := ViewerSession(VIEWER, CLIP, 100, 40, 80000, 2000, None, start, start);
    var w0 := Catalog(2000, start, 1000000, 120000, map[KEY := s]);
    assert SettlementAdmitted(s, BalanceOf(w0.ledger, VIEWER), 50, now, now);
    var r := SettleSession(w0, VIEWER, VIEWER, CLIP, 50, now, now);
    assert r.Ok?;
    assert r.value.event.platformFee == 100000 * 250 / BASIS_POINTS == 2500;
    var s' := r.value.world.sessions[KEY];
    assert SettleAccountsReady(r.value.world, VIEWER, VIEWER, CLIP);
    assert CheckSettlement(s', BalanceOf(r.value.world.ledger, VIEWER), 20, now, now)
           == Err(SettlementExceedsApproval);
  }

  /**
   * A session idle for more than an hour but not a day: unit payment is
   * refused as inactive, while a batch reported within the session's lifetime
   * still settles.
   */
  lemma InactiveSessionScenario(start: i64)
    requires 0 < start < 1000
    ensures var s := ViewerSession(VIEWER, CLIP, 10, 0, 0, 1000, None, start, start);
            var w0 := Catalog(1000, start, 1000000, 10000, map[KEY := s]);
            var later := start + SESSION_INACTIVITY_DURATION + 1;
            && PayForChunk(w0, VIEWER, CLIP, 0, later) == Err(SessionInactive)
            && SettleSession(w0, VIEWER, VIEWER, CLIP, 5, start, later).Ok?
  {
    var s := ViewerSession(VIEWER, CLIP, 10, 0, 0, 1000, None, start, start);
    var w0 := Catalog(1000, start, 1000000, 10000, map[KEY := s]);
    var later := start + SESSION_INACTIVITY_DURATION + 1;
    assert PayAccountsReady(w0, VIEWER, CLIP);
    assert SettlementAdmitted(s, BalanceOf(w0.ledger, VIEWER), 5, start, later);
  }
}
