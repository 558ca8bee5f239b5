/**
 * The payment distribution pay_for_chunk and settle_session share: the split
 * of an amount into platform fee and creator share, the two transfers out of
 * the viewer's balance, and the crediting of the video, earnings and platform
 * totals.
 */
module Payments {
  import opened Results
  import opened Ints
  import opened Constants
  import opened State
  import opened Ledger

  /** An amount divided into the platform's fee and the creator's share. */
  datatype Split = Split(fee: u64, creatorAmount: u64)

  /**
   * Computes the platform fee and subtracts it (checked) from the amount. The
   * two parts always add up to the amount; for a fee rate of at most 100% the
   * split cannot fail and the fee is the rounded-down basis-point share.
   */
  function SplitPayment(p: Platform, amount: u64): (r: Result<Split>)
    ensures r.Ok? ==> r.value.fee + r.value.creatorAmount == amount
    ensures p.platformFeeBasisPoints <= BASIS_POINTS ==>
              r.Ok? && r.value.fee == amount * p.platformFeeBasisPoints / BASIS_POINTS
    ensures r.Err? ==> r.error == ArithmeticOverflow
  {
    var fee :- CalculatePlatformFee(p, amount);
    var creatorAmount :- CheckedSubU64(amount, fee);
    Ok(Split(fee, creatorAmount))
  }

  /** The payer, the creator and the platform treasury are three different owners. */
  predicate Distinct(payer: Pubkey, creator: Pubkey, treasury: Pubkey)
  {
    payer != creator && payer != treasury && creator != treasury
  }

  /**
   * The payer's balance and allowance cover `amount`, and neither recipient's
   * balance overflows on receiving it (a recipient that is the payer itself
   * receives nothing).
   */
  predicate CanDistribute(l: Ledger, payer: Pubkey, creator: Pubkey, treasury: Pubkey, amount: int)
  {
    && BalanceOf(l, payer) >= amount && AllowanceOf(l, payer) >= amount
    && (creator == payer || BalanceOf(l, creator) + amount <= U64_MAX)
    && (treasury == payer || BalanceOf(l, treasury) + amount <= U64_MAX)
  }

  /**
   * Moves the creator's share to the creator, then the fee to the treasury when
   * the fee is not zero, both under the platform's allowance over the payer.
   * Between three different owners this debits the payer by the whole amount,
   * credits each recipient with its part and consumes as much allowance; it
   * succeeds whenever the payer's balance and allowance cover the amount and
   * no recipient overflows. No other owner is touched.
   */
  function Distribute(l: Ledger, payer: Pubkey, creator: Pubkey, treasury: Pubkey, split: Split)
    : (r: Result<Ledger>)
    ensures r.Ok? && Distinct(payer, creator, treasury) ==>
              && BalanceOf(r.value, payer) == BalanceOf(l, payer) - split.fee - split.creatorAmount
              && BalanceOf(r.value, creator) == BalanceOf(l, creator) + split.creatorAmount
              && BalanceOf(r.value, treasury) == BalanceOf(l, treasury) + split.fee
              && AllowanceOf(r.value, payer) == AllowanceOf(l, payer) - split.fee - split.creatorAmount
    ensures (&& Distinct(payer, creator, treasury)
             && BalanceOf(l, payer) >= split.fee + split.creatorAmount
             && AllowanceOf(l, payer) >= split.fee + split.creatorAmount
             && BalanceOf(l, creator) + split.creatorAmount <= U64_MAX
             && BalanceOf(l, treasury) + split.fee <= U64_MAX) ==> r.Ok?
    ensures CanDistribute(l, payer, creator, treasury, split.fee + split.creatorAmount) ==> r.Ok?
    ensures r.Ok? ==> forall o :: o != payer && o != creator && o != treasury ==>
                                    BalanceOf(r.value, o) == BalanceOf(l, o)
    ensures r.Ok? ==> forall o :: o != payer ==> AllowanceOf(r.value, o) == AllowanceOf(l, o)
    // Each transfer, even one to the payer itself, needs the allowance to cover it.
    ensures r.Ok? ==> AllowanceOf(l, payer) >= split.creatorAmount && AllowanceOf(l, payer) >= split.fee
    ensures r.Err? ==> r.error in {TokenInsufficientFunds, TokenOverflow}
  {
    var l1 :- DelegatedTransfer(l, payer, creator, split.creatorAmount);
    if split.fee > 0 then DelegatedTransfer(l1, payer, treasury, split.fee) else Ok(l1)
  }

  /** The totals a sale updates outside the session. */
  datatype Totals = Totals(video: Video, earnings: CreatorEarnings, platform: Platform)

  /** One when the sale opens the session's consumption, zero otherwise. */
  function SessionIncrement(firstSale: bool): nat
  {
    if firstSale then 1 else 0
  }

  /** Every running total a sale credits can take `units` more chunks and `amount` more tokens. */
  predicate CountersHaveRoom(v: Video, e: CreatorEarnings, p: Platform, units: int, amount: int)
  {
    && v.totalChunksServed + units <= U64_MAX && v.totalSessions < U64_MAX
    && e.totalEarned + amount <= U64_MAX && e.totalChunksSold + units <= U64_MAX
    && e.totalSessions < U64_MAX
    && p.totalRevenue + amount <= U64_MAX
  }

  /**
   * Credits a sale of `units` chunks: the video's served count and the
   * creator's sold count grow by `units`, the creator's earnings by the creator
   * share, the platform's revenue by the fee, and both session counts by one
   * exactly when this is the session's first sale. Each addition is checked;
   * nothing else in the three records changes.
   */
  function CreditSale(v: Video, e: CreatorEarnings, p: Platform, units: u64, split: Split,
                      firstSale: bool): (r: Result<Totals>)
    ensures r.Ok? <==>
              && v.totalChunksServed + units <= U64_MAX
              && e.totalEarned + split.creatorAmount <= U64_MAX
              && e.totalChunksSold + units <= U64_MAX
              && v.totalSessions + SessionIncrement(firstSale) <= U64_MAX
              && e.totalSessions + SessionIncrement(firstSale) <= U64_MAX
              && p.totalRevenue + split.fee <= U64_MAX
    ensures CountersHaveRoom(v, e, p, units, split.fee + split.creatorAmount) ==> r.Ok?
    ensures r.Ok? ==>
              && r.value.video.totalChunksServed == v.totalChunksServed + units
              && r.value.video.totalSessions == v.totalSessions + SessionIncrement(firstSale)
              && r.value.video.(totalChunksServed := v.totalChunksServed,
                                totalSessions := v.totalSessions) == v
    ensures r.Ok? ==>
              && r.value.earnings.totalEarned == e.totalEarned + split.creatorAmount
              && r.value.earnings.totalChunksSold == e.totalChunksSold + units
              && r.value.earnings.totalSessions == e.totalSessions + SessionIncrement(firstSale)
              && r.value.earnings.creator == e.creator
              && r.value.earnings.video == e.video
    ensures r.Ok? ==>
              && r.value.platform.totalRevenue == p.totalRevenue + split.fee
              && r.value.platform.(totalRevenue := p.totalRevenue) == p
    ensures r.Err? ==> r.error == ArithmeticOverflow
  {
    var served :- CheckedAddU64(v.totalChunksServed, units);
    var earned :- CheckedAddU64(e.totalEarned, split.creatorAmount);
    var sold :- CheckedAddU64(e.totalChunksSold, units);
    var videoSessions :- CheckedAddU64(v.totalSessions, SessionIncrement(firstSale));
    var earningsSessions :- CheckedAddU64(e.totalSessions, SessionIncrement(firstSale));
    var revenue :- CheckedAddU64(p.totalRevenue, split.fee);
    Ok(Totals(
         v.(totalChunksServed := served, totalSessions := videoSessions),
         e.(totalEarned := earned, totalChunksSold := sold, totalSessions := earningsSessions),
         p.(totalRevenue := revenue)))
  }
}
