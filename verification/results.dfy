/** Option and Result types, and the single error type every instruction can fail with. */
module Results {

  /** Rust's `Option`. */
  datatype Option<+T> = None | Some(value: T)

  /** Why an instruction was rejected. A rejected instruction changes nothing. */
  datatype Error =
    // The program's own error enum (errors.rs).
    | VideoIdTooLong
    | IpfsHashTooLong
    | TitleTooLong
    | DescriptionTooLong
    | TooManyChunks
    | PriceTooLow
    | VideoNotActive
    | InvalidChunkIndex
    | InsufficientApproval
    | OutOfSequenceChunk
    | SessionExpired
    | SessionInactive
    | PriceChangedSinceApproval
    | MaxChunksPerApprovalExceeded
    | InvalidTokenMint
    | NoUpdateProvided
    | PlatformFeeTooHigh
    | ArithmeticOverflow
    | Unauthorized
    | VideoAlreadyExists
    | InvalidSession
    | NoDelegationToRevoke
    | InvalidPlatformAccount
    | InsufficientBalanceForApproval
    | InsufficientBalance
    | InvalidCreatorEarnings
    | InvalidSessionState
    | UnauthorizedPlatformInitialization
    // Raised by settle_session but not declared in errors.rs.
    | InvalidChunkCount
    | SettlementTooOld
    | SettlementInFuture
    | SettlementExceedsApproval
    // Raised by the account framework before the instruction body runs.
    | AccountNotInitialized
    | AccountAlreadyInUse
    | ConstraintViolated
    // Raised by the token ledger.
    | TokenInsufficientFunds
    | TokenOverflow
    // An unchecked integer operation overflowed, aborting the transaction.
    | ArithmeticPanic

  /** The outcome of a fallible step; usable with `:-`. */
  datatype Result<+T> = Ok(value: T) | Err(error: Error) {

    predicate IsFailure() {
      Err?
    }

    /** The same failure at another value type (only ever called on an `Err`). */
    function PropagateFailure<U>(): Result<U>
    {
      if Err? then Err(error) else Err(ArithmeticPanic)
    }

    function Extract(): T
      requires Ok?
    {
      value
    }
  }
}
