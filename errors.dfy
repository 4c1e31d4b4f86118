/** How the handle reports a failure. Three shapes appear in the class:
    a reason and a location handed to the error logger, a fixed literal
    message, and the rewrapped failure of the external step, whose text is
    built in the class itself. */
module Errors {

  /** The keys of the error-message table that the handle reports with
      (`contract_already_deployed`, `no_signer_instance_supplied`, ...). */
  datatype Reason =
    | ContractAlreadyDeployed
    | ContractAlreadyLoaded
    | ContractNotDeployed
    | ContractNotDeployedOrLoaded
    | NoSignerInstanceSupplied
    | NoNameSupplied
    | NoSymbolSupplied
    | NoContractURISupplied
    | InvalidMaxSupply
    | InvalidPrice
    | InvalidContractAddress
    | NoTokenIdSupplied
    | NoSellPriceSupplied
    | InvalidContractURI
    | NoAddressSupplied
    | FeeMustBeBetween0And10000
    | InvalidFromAddress
    | InvalidToAddress
    | TokenIdMustBeInteger
    | NoToAddress
    | ApprovalStatusMustBeBoolean

  /** The location tags (`ERC721UserMintable_<tag>`) the class passes to the
      error logger. `setBaseURI` reports under `SetContractURI`. */
  datatype Location =
    | Deploy
    | LoadContract
    | Mint
    | RoyaltyInfo
    | SetContractURI
    | SetPrice
    | SetRoyalties
    | ToggleSale
    | Transfer
    | SetApprovalForAll
    | ApproveTransfer
    | RenounceOwnership
    | Withdraw

  /** The public operations, named as they appear in a rewrapped message. */
  datatype Operation =
    | Deploy
    | LoadContract
    | Mint
    | Price
    | Reserve
    | Reveal
    | RoyaltyInfo
    | SetBaseURI
    | SetPrice
    | SetRoyalties
    | ToggleSale
    | Transfer
    | SetApprovalForAll
    | ApproveTransfer
    | RenounceOwnership
    | Withdraw

  function Name(op: Operation): string {
    match op
    case Deploy => "deploy"
    case LoadContract => "loadContract"
    case Mint => "mint"
    case Price => "price"
    case Reserve => "reserve"
    case Reveal => "reveal"
    case RoyaltyInfo => "royaltyInfo"
    case SetBaseURI => "setBaseURI"
    case SetPrice => "setPrice"
    case SetRoyalties => "setRoyalties"
    case ToggleSale => "toggleSale"
    case Transfer => "transfer"
    case SetApprovalForAll => "setApprovalForAll"
    case ApproveTransfer => "approveTransfer"
    case RenounceOwnership => "renounceOwnership"
    case Withdraw => "withdraw"
  }

  /** The `{ message, type }` pair the network error handler extracts from a
      thrown error; how it classifies is not part of this model. */
  datatype Classified = Classified(errorType: string, message: string)

  datatype Failure =
    | Logged(location: Location, reason: Reason)   // formatted by the error logger
    | Literal(text: string)                        // a fixed message
    | Wrapped(op: Operation, cause: Classified)    // the catch block's rewrap
    | Uncaught(message: string)                    // a library error that escapes unwrapped

  datatype Result<T> = Ok(value: T) | Err(failure: Failure)

  const WrapMarker := "] An error occured: "

  /** The text of a rewrapped failure: the handler's type in brackets, the
      class and operation tag, the fixed marker, then the handler's message.
      It spells out the one template every catch block of the class uses
      (the `deploy` one at line 117 of ERC721UserMintable.js); a
      `Wrapped(op, cause)` failure stands for the error whose message is
      `WrappedText(op, cause)`. */
  function WrappedText(op: Operation, cause: Classified): (s: string)
    ensures |s| == |cause.errorType| + |Name(op)| + |cause.message| + 41
    ensures s[..1 + |cause.errorType|] == "[" + cause.errorType
    ensures s[1 + |cause.errorType|..21 + |cause.errorType|] == "[ERC721UserMintable."
    ensures s[21 + |cause.errorType|..21 + |cause.errorType| + |Name(op)|] == Name(op)
    ensures s[21 + |cause.errorType| + |Name(op)|..|s| - |cause.message|] == WrapMarker
    ensures s[|s| - |cause.message|..] == cause.message
  {
    "[" + cause.errorType + "[ERC721UserMintable." + Name(op) + WrapMarker + cause.message
  }

}
