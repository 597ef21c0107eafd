// Result and option types standing for the source's `(value, error)` returns.
module Wrappers {
  datatype Option<+T> = None | Some(value: T)

  /** The errors of errors.go (both packages) that the modelled code can return,
      and `Panic` for an input on which the Go code stops with a run-time panic. */
  datatype Error =
    | InvalidArguments
    | InvalidNumOfArgs
    | InvalidTokenID
    | InvalidNonce
    | InvalidRcvAddr
    | InvalidAddressLength
    | NotSystemContract
    | InvalidNFTQuantity
    | InsufficientQuantity
    | InsufficientFunds
    | InvalidLiquidity
    | NilDCDTData
    | NilUserAccount
    | NewNFTDataOnSender
    | NFTDoesNotHaveMetadata
    | OnlyFungible
    | NegativeValue
    | Frozen
    | Paused
    | NotEnoughGas
    | AccountNotPayable
    | ActionNotAllowed
    | CannotWipeNotFrozen
    | OperationNotPermitted
    | TooManyTransferAddresses
    | TransfersNotIndexed
    | InvalidMetadata
    | TokenHasValidMetadata
    | Unmarshal
    | TokenizeFailed
    | InvalidDataString
    | NotTransferInput
    | NotEnoughArguments
    | Panic

  datatype Result<+T> = Ok(value: T) | Err(error: Error) {
    predicate IsFailure() {
      Err?
    }

    function PropagateFailure<U>(): Result<U>
      requires Err?
    {
      Err(error)
    }

    function Extract(): T
      requires Ok?
    {
      value
    }
  }

  /** `:- Need(cond, err)` is the source's `if !cond { return err }`. */
  function Need(condition: bool, error: Error): Result<()> {
    if condition then Ok(()) else Err(error)
  }
}
