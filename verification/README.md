# solplay_402 in Dafny

A model of the SolPlay 402 on-chain program: a pay-per-chunk video streaming
platform. Creators register videos priced per chunk. Viewers approve the
platform to spend their tokens for a number of chunks. Chunks are then paid
either one at a time, in strict order (`pay_for_chunk`), or in batches reported
by a backend (`settle_session`). Each payment splits into a platform fee and a
creator share.

The model is functional. The program's accounts form one value, `World`:
- the platform singleton;
- videos and creator-earnings records, keyed by video id;
- viewer sessions, keyed by the (viewer, video) pair;
- an abstract token ledger of balances plus one replaceable allowance per owner.

Every instruction handler is a pure function from a world to a
`Result<Committed>`: the new world plus the event record it emits. The error
cases follow the handlers' `require!` order.

Integer fields are subset types of the source's widths (`u16`, `u32`, `u64`,
`u128`, `i64`). Checked arithmetic fails with `ArithmeticOverflow`. Two
unchecked operations abort the transaction when out of range:
- the re-approval subtraction `max - consumed`;
- the sequence check's `last + 1`.

These are modelled as an `ArithmeticPanic` error, and `Program.StepNeverPanics`
shows that no valid world reaches it. Text fields are byte sequences, because
the source's `len()` counts UTF-8 bytes.

`Accounts.Valid` is the invariant of reachable worlds. It requires:
- the fee rate is at most 1000 basis points;
- every video has an earnings record belonging to it and its creator;
- every video is within its limits;
- every session is stored under its own viewer and video;
- every session has `chunks_consumed <= max_approved_chunks`;
- every session's last paid index is a chunk of its video.

Every instruction preserves `Valid`, so every world reached from the
uninitialized program satisfies it (`Program.ReachableWorldInvariants`).

Modules:
- `Results`, `Constants`, `Ints`: error enum, constants, integer widths.
- `State`: the four account records and their methods, from `state.rs`.
- `Ledger`: the token program's balances and allowances.
- `Events`: the event records.
- `Accounts`: the world and the invariant.
- `Payments`: the fee split, transfers and counter credits shared by both payment paths.
- One module per instruction handler.
- `Program`: dispatch, atomic transactions and runs.
- `Scenarios`: worked numeric examples.

Points where the model follows the code as written:
- **Inactive sessions revive on batch settlement.** `settle_session` sets
  `last_activity = now`, so batch settlement brings an inactive session back
  to life.
- **Batch settlement leaves the sequence marker alone.** `settle_session` does
  not advance `last_paid_chunk_index`, so unit payment after a batch continues
  from the last unit-paid index.
- **Re-approval prices at the current price.** A re-approval sizes the
  allowance at the video's *current* price, while the session keeps its locked
  price. After a price rise, unit payment is refused (`PriceChangedSinceApproval`).
  Batch settlement still charges the locked price.
- **One allowance per viewer.** There is one allowance per viewer token
  account, so approving a second video replaces the allowance granted for the
  first.
- **A zero opening time means a new session.** A session whose `session_start`
  is 0 counts as new, as in `approve_delegate.rs`.
- **`settle_session` is reachable here but not in the deployed program.**
  `settle_session` is declared in `instructions/mod.rs`, but `lib.rs` does not
  route it. `Program.Step` dispatches it anyway, so that its interaction with
  the other instructions is covered by the invariant proofs.
- **Four settlement errors are missing from the enum.** `settle_session` uses
  `InvalidChunkCount`, `SettlementTooOld`, `SettlementInFuture` and
  `SettlementExceedsApproval`, which `errors.rs` does not declare. They are
  separate cases of `Results.Error` here.

## Model

| member | source | states |
|---|---|---|
| State.CalculatePlatformFee | programs/solplay_402/src/state.rs:36-44 | never fails; for a rate of at most 100% the fee is `floor(amount * bps / 10000)` and at most `amount` |
| State.FeeWithinAmount | programs/solplay_402/src/state.rs:43 | for `bps <= 10000` the rounded-down share never exceeds the amount, so the narrowing cast loses nothing |
| State.ValidateVideo | programs/solplay_402/src/state.rs:82-104 | accepts exactly the videos with id ≤ 64, hash ≤ 128, title ≤ 200, description ≤ 1000 bytes and ≤ 10000 chunks; otherwise the first violated limit in the order id, hash, title, description, chunk count decides the error, each of the five pinned |
| State.ExpiryBoundary | programs/solplay_402/src/state.rs:138-140 | exactly 86400 s after opening is not expired; 86401 s is |
| State.InactivityBoundary | programs/solplay_402/src/state.rs:142-144 | exactly 3600 s after the last activity is not inactive; 3601 s is |
| State.ExpiryIsPermanent | programs/solplay_402/src/state.rs:138-140 | once expired, a session is expired at every later time |
| State.SequenceAcceptsOnlyExpected | programs/solplay_402/src/state.rs:150-155 | the sequence check accepts exactly one index: 0 before any payment, otherwise the last paid index plus one |
| State.UpdateActivity | programs/solplay_402/src/state.rs:157-161 | sets the activity time, counts exactly one more chunk, records the paid index, and changes no other field |
| State.UpdateAdvancesSequence | programs/solplay_402/src/state.rs:150-161 | after paying chunk `i` the only index accepted next is `i + 1`; no index up to `i` can be paid again |
| State.AcceptRunCountsUp | programs/solplay_402/src/state.rs:146-161 | a run of unit payments is admitted iff its indices count up from the expected index without gap or repeat and fit in the remaining approval; it consumes one chunk per index |
| State.FreshSessionAcceptsZeroOneTwo | programs/solplay_402/src/state.rs:150-155 | from a session with no payment, every admitted run of indices is 0, 1, 2, … in order |
| Ledger.Approve | programs/solplay_402/src/instructions/approve_delegate.rs:155-164 | the allowance becomes the approved amount (replaced, not added to); no other allowance or any balance changes |
| Ledger.Revoke | programs/solplay_402/src/instructions/revoke_delegate.rs:52-59 | the owner's allowance becomes zero; nothing else changes |
| Ledger.DelegatedTransfer | programs/solplay_402/src/instructions/pay_for_chunk.rs:136-146 | succeeds iff balance and allowance cover the amount and the recipient cannot overflow; moves exactly the amount and consumes as much allowance |
| Payments.SplitPayment | programs/solplay_402/src/instructions/pay_for_chunk.rs:126-130 | fee plus creator share equals the amount; for a rate of at most 100% the split never fails and the fee is the rounded-down share |
| Payments.Distribute | programs/solplay_402/src/instructions/pay_for_chunk.rs:132-161 | between distinct parties the payer loses the whole amount, creator and treasury gain their parts, the allowance shrinks by the amount; whoever the parties are, it succeeds when funds and allowance cover the amount and no recipient overflows, and each transfer needs the allowance to cover it; no one else is touched |
| Payments.CreditSale | programs/solplay_402/src/instructions/pay_for_chunk.rs:170-202 | served, sold, earned and revenue grow by the sale; session counters grow by one exactly on a first sale; fails iff some addition overflows; no other field changes |
| ChunkPayment.CheckPayment | programs/solplay_402/src/instructions/pay_for_chunk.rs:83-124 | passes iff the chunk is admitted; otherwise the first failing check decides the error: expired, inactive, index, approval, sequence, price lock, balance |
| ChunkPayment.PayForChunk | programs/solplay_402/src/instructions/pay_for_chunk.rs:76-227 | only admitted chunks are paid, and an admitted chunk is paid whenever the fee rate is at most 100%, the allowance covers the price and no balance or running total overflows; one more chunk is consumed with `consumed <= max` kept; the fee split and counters; the viewer's balance and allowance drop by the price, no other allowance changes; the event's sequence number is the new consumed count |
| ChunkPayment.PayForChunkPreservesValid | programs/solplay_402/src/instructions/pay_for_chunk.rs:163-168 | a unit payment keeps every session within its approval and its last paid index within the video |
| ChunkPayment.PayForChunkNeverPanics | programs/solplay_402/src/instructions/pay_for_chunk.rs:107-111 | in a valid world the unchecked `last + 1` of the sequence check cannot overflow |
| BatchSettlement.CheckSettlement | programs/solplay_402/src/instructions/settle_session.rs:91-147 | passes iff the batch is admitted, returning the locked price times the count; otherwise the first failing check decides the error: empty batch, expiry, too old, in the future, `ArithmeticOverflow` for the `consumed + count` addition, ceiling exceeded, `ArithmeticOverflow` for the 64-bit narrowing of the total, balance |
| BatchSettlement.SettleSession | programs/solplay_402/src/instructions/settle_session.rs:80-259 | only the session's viewer can settle; only admitted batches settle, and an admitted batch settles whenever the fee rate is at most 100%, the allowance covers the total and no balance or running total overflows; consumed grows by the count within the approval; the locked price is charged; the sequence marker is kept and the session becomes active; counters; the signer's balance and allowance drop by the total |
| BatchSettlement.SettleSessionPreservesValid | programs/solplay_402/src/instructions/settle_session.rs:119-127 | a batch settlement keeps every session within its approval |
| Delegation.OpenSession | programs/solplay_402/src/instructions/approve_delegate.rs:89-111 | a new session gets the requested ceiling, nothing consumed, the current price locked and the current time; the allowance is `price * max_chunks`; the platform counts one more session; a full session counter or an allowance beyond 64 bits fails with `ArithmeticOverflow`, a short balance with `InsufficientBalanceForApproval`, and otherwise the approval succeeds |
| Delegation.ExtendSession | programs/solplay_402/src/instructions/approve_delegate.rs:112-141 | succeeds iff the session is neither expired nor inactive, the raised ceiling fits in 32 bits and covers what is consumed, and the outstanding amount fits in 64 bits and within the balance; each failure is pinned: expiry, inactivity, `ArithmeticOverflow` for the ceiling addition, `ArithmeticPanic` for the unchecked `max - consumed`, `ArithmeticOverflow` for the narrowing, `InsufficientBalanceForApproval`; the ceiling rises by the request; only the ceiling and activity time change; the allowance is the current price times everything outstanding |
| Delegation.ApproveStreamingDelegate | programs/solplay_402/src/instructions/approve_delegate.rs:74-151 | a request of 0 or more than 1000 chunks is refused before any change; new vs re-approval is decided by the opening time, and the result is exactly that of opening or extending; the allowance is replaced by the total outstanding and never exceeds the balance |
| Delegation.ApprovePreservesValid | programs/solplay_402/src/instructions/approve_delegate.rs:124-133 | an approval keeps every session within its approval |
| Delegation.ApproveNeverPanics | programs/solplay_402/src/instructions/approve_delegate.rs:132-133 | in a valid world the unchecked `max - consumed` of a re-approval cannot underflow |
| VideoCreation.CheckVideoArguments | programs/solplay_402/src/instructions/create_video.rs:64-84 | passes iff all four lengths are within their caps, the chunk count is in [1, 10000] and the price meets the minimum; otherwise the first failing check's error, each of the six pinned |
| VideoCreation.CreateVideo | programs/solplay_402/src/instructions/create_video.rs:53-137 | an id in use is refused; a stored video is active, passes its own validation, has zero counters; its earnings record is zero; the platform counts one more video |
| VideoCreation.CreateVideoPreservesValid | programs/solplay_402/src/instructions/create_video.rs:77-111 | registering a video keeps the world valid |
| VideoCreation.VideoIdRegisteredOnce | programs/solplay_402/src/instructions/create_video.rs:22-27 | after a registration, any second registration under the same id fails |
| VideoUpdate.UpdateVideo | programs/solplay_402/src/instructions/update_video.rs:30-70 | only the creator may update; an empty update fails with `NoUpdateProvided` and a price below the minimum with `PriceTooLow`; only price and active flag change, an absent option keeps its field |
| VideoUpdate.UpdateVideoPreservesValid | programs/solplay_402/src/instructions/update_video.rs:46-57 | an update keeps the world valid |
| VideoUpdate.UpdateVideoIdempotent | programs/solplay_402/src/instructions/update_video.rs:46-57 | repeating a successful update succeeds and leaves the world unchanged |
| PlatformInit.InitializePlatform | programs/solplay_402/src/instructions/initialize.rs:53-98 | succeeds iff no platform exists and the rate is at most 1000 bps; stores the given fields with zero counters |
| PlatformInit.InitializePreservesValid | programs/solplay_402/src/instructions/initialize.rs:67-70 | initialization keeps the world valid |
| PlatformInit.AuthorityFixedByFirstCaller | programs/solplay_402/src/instructions/initialize.rs:33-39 | after initialization any further call fails, so the first caller's authority is permanent |
| Revocation.RevokeStreamingDelegate | programs/solplay_402/src/instructions/revoke_delegate.rs:47-77 | only the session's own viewer may revoke; the viewer's allowance becomes zero; every session, balance and other allowance is unchanged; the event reports consumed and spent |
| Revocation.RevokePreservesValid | programs/solplay_402/src/instructions/revoke_delegate.rs:48 | revoking keeps the world valid |
| SessionClosing.CloseViewerSession | programs/solplay_402/src/instructions/close_session.rs:31-57 | closing an absent session fails; only the session's viewer may close; exactly that session is removed and nothing else changes; the event reports the final values |
| SessionClosing.ClosePreservesValid | programs/solplay_402/src/instructions/close_session.rs:12-19 | closing keeps the world valid |
| Program.StepPreservesValid | programs/solplay_402/src/lib.rs:24-89 | every instruction keeps the world valid |
| Program.StepNeverPanics | programs/solplay_402/src/lib.rs:24-89 | no instruction in a valid world reaches an out-of-range unchecked operation |
| Program.RunPreservesValid | programs/solplay_402/src/lib.rs:24-89 | every run of transactions from a valid world ends in a valid world |
| Program.ReachableWorldInvariants | programs/solplay_402/src/instructions/initialize.rs:67-70 | every reachable world is valid: `consumed <= max` for every session, `bps <= 1000 <= 10000`, and no instruction panics |
| Program.PriceChangeSplitsPaymentPaths | programs/solplay_402/src/instructions/pay_for_chunk.rs:113-117 | after a price change, unit payment on a session locked at another price fails, while batch settlement charges the locked price |
| Program.CloseThenApproveStartsFresh | programs/solplay_402/src/instructions/approve_delegate.rs:84-99 | after a close, the next approval of that (viewer, video) pair is a new session: not a re-approval, nothing consumed, the video's current price locked |
| Program.RevokeBlocksPayments | programs/solplay_402/src/instructions/revoke_delegate.rs:52-59 | after a revoke the viewer's allowance is zero, so every unit payment at a positive price and every batch at a positive locked price fails |
| Program.ExpiredSessionCanOnlyBeClosed | programs/solplay_402/src/state.rs:138-140 | once a session opened at a non-zero time has expired, at every later time re-approval, unit payment and batch settlement of it fail, with `SessionExpired` when their accounts are in place; its viewer can still close it |
| Scenarios.CatalogByInstructions | programs/solplay_402/src/instructions/create_video.rs:92-117 | initializing at 250 bps and registering a 100-chunk video at 1000 yield exactly the catalog the other examples start from |
| Scenarios.ApproveTenScenario | programs/solplay_402/src/instructions/approve_delegate.rs:89-105 | price 1000: approving 10 chunks opens the session at that price and delegates exactly 10000 |
| Scenarios.UnitPaymentScenario | programs/solplay_402/src/instructions/pay_for_chunk.rs:126-168 | price 1000 at 250 bps: paying chunk 0 charges fee 25 and creator 975, consumed 1, last paid 0 |
| Scenarios.SkippedChunkScenario | programs/solplay_402/src/instructions/pay_for_chunk.rs:107-111 | after chunk 0, paying chunk 2 is refused as out of sequence and the transaction changes nothing |
| Scenarios.BatchSettlementScenario | programs/solplay_402/src/instructions/settle_session.rs:119-155 | a session with ceiling 100 and 40 consumed at locked price 2000: settling 50 totals 100000 (fee 2500, creator 97500) and reaches 90; 20 more exceed the approval |
| Scenarios.InactiveSessionScenario | programs/solplay_402/src/instructions/settle_session.rs:99-114 | after more than an hour idle, unit payment is refused as inactive while a batch within the session's lifetime settles |

## Left out

- Anchor account wiring is not modelled. This covers PDA derivation, bumps, `init`/`init_if_needed` space, rent and account ownership. Keying is a map lookup: sessions by (viewer, video), videos and earnings by video id.
  - Address derivation limits a seed to 32 bytes, so video ids of 33 to 64 bytes could not be registered on chain. The model admits them.
  - Handlers load all of an instruction's accounts first, then check the declared constraints in field order. Anchor interleaves these per account, so the reported error can differ when several accounts are wrong at once.
- Token-account constraints are left out, because the ledger has one token account per owner. These are the owner and mint checks, `InvalidTokenMint` and `InvalidPlatformAccount`, and the differing platform-account owner between `approve_delegate.rs` and `pay_for_chunk.rs`.
- The token program is replaced by the `Ledger` module. Allowances are always granted to the platform. Mint decimals, delegate identity and the real program's error codes are not modelled.
- Events are returned as values. Their serialization, the `msg!` logs and the unused `SessionExpired` event are out.
- The clock is the `now` parameter. Timestamp differences are exact integers, while the source's `i64` subtraction would overflow only at timestamps near the `i64` bounds.
- Closing a session refunds rent lamports to the viewer. Lamports are not modelled.
- `DEFAULT_PLATFORM_FEE_BPS`, `MIN_PRICE_PER_CHUNK` and the seed constants from `constants.rs` are unused by the handlers and not modelled.
- The deployment concerns in `initialize.rs` comments (front-running, authority binding) are out. They concern concurrency, not sequential behaviour.
- Unchecked operations are modelled as `ArithmeticPanic`, assuming the build aborts on overflow (`overflow-checks = true`, as Anchor workspaces configure their release profile). A build without overflow checks would wrap instead.
- ChunkPayment.PayForChunk: the balance effects are stated only when viewer, creator and platform authority are three different owners. When two of them coincide, the ledger follows the token program's no-op self-transfer, but the contract says nothing about the balances. Its success condition is sufficient rather than exact: it asks each recipient and running total to have room for the whole price, not just for its own part.
- BatchSettlement.SettleSession: the balance effects are stated only when viewer, creator and platform authority are three different owners, and its success condition is sufficient rather than exact, as for `PayForChunk`.
