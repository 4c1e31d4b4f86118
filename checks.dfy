/** The argument checks of every operation, as ordered fail-fast lists.
    Each operation runs its checks in the order the class declares them and
    reports the first that fails; only when all pass does it reach its
    external step. */
module Checks {
  import opened Wrappers
  import opened JsValues
  import opened Errors
  import opened Chain

  /** One guard: whether it passes, and what is thrown when it does not. */
  datatype Check = Check(ok: bool, failure: Failure)

  predicate AllPass(cs: seq<Check>) {
    forall i :: 0 <= i < |cs| ==> cs[i].ok
  }

  /** Check `i` is the first one that fails. */
  predicate FailsFirstAt(cs: seq<Check>, i: int) {
    0 <= i < |cs| && !cs[i].ok && forall j :: 0 <= j < i ==> cs[j].ok
  }

  /** Runs the checks in order and stops at the first that fails. */
  function FirstFailure(cs: seq<Check>): (r: Option<Failure>)
    ensures r.None? <==> AllPass(cs)
    ensures r.Some? ==> exists i :: FailsFirstAt(cs, i) && r.value == cs[i].failure
  {
    if cs == [] then None
    else if !cs[0].ok then
      assert FailsFirstAt(cs, 0);
      Some(cs[0].failure)
    else
      var r := FirstFailure(cs[1..]);
      assert AllPass(cs[1..]) ==> AllPass(cs) by {
        if AllPass(cs[1..]) {
          forall i | 0 < i < |cs| ensures cs[i].ok { assert cs[i] == cs[1..][i - 1]; }
        }
      }
      assert r.Some? ==> exists i :: FailsFirstAt(cs, i) && r.value == cs[i].failure by {
        if r.Some? {
          var k :| FailsFirstAt(cs[1..], k) && r.value == cs[1..][k].failure;
          assert FailsFirstAt(cs, k + 1);
        }
      }
      r
  }

  /** The failure reported is exactly that of the first failing check. */
  lemma {:induction false} FirstFailureAt(cs: seq<Check>, i: int)
    requires FailsFirstAt(cs, i)
    ensures FirstFailure(cs) == Some(cs[i].failure)
  {
    if i > 0 {
      assert cs[0].ok;
      assert FailsFirstAt(cs[1..], i - 1) by {
        forall j | 0 <= j < i - 1 ensures cs[1..][j].ok { assert cs[1..][j] == cs[j + 1]; }
      }
      FirstFailureAt(cs[1..], i - 1);
    }
  }

  // ---- the individual validators ----

  /** The address test: a truthy value that the library's address check
      accepts; `isAddress` stands for that check, which rejects every
      non-string. */
  predicate AddressAccepted(isAddress: string -> bool, v: JsValue)
    ensures AddressAccepted(isAddress, v) <==> v.Str? && v.s != "" && isAddress(v.s)
  {
    Truthy(v) && v.Str? && isAddress(v.s)
  }

  /** The quantity test of `mint` and `reserve`, in the class's own order:
      truthy, an integer, above 0 and at most 20. */
  predicate QuantityAccepted(quantity: JsValue)
    ensures QuantityAccepted(quantity) <==> quantity.Int? && 1 <= quantity.n <= 20
  {
    Truthy(quantity) && IsInteger(quantity) && quantity.n > 0 && quantity.n <= 20
  }

  /** The fee test of `setRoyalties`, in the class's own order: truthy, an
      integer, above 0 and below 10000. */
  predicate FeeAccepted(fee: JsValue)
    ensures FeeAccepted(fee) <==> fee.Int? && 1 <= fee.n <= 9999
  {
    Truthy(fee) && IsInteger(fee) && fee.n > 0 && fee.n < 10000
  }

  /** One check placed in front of the rest of a list. */
  function Before(check: Check, rest: seq<Check>): (cs: seq<Check>)
    ensures FirstFailure(cs) == if check.ok then FirstFailure(rest) else Some(check.failure)
  {
    var cs := [check] + rest;
    assert cs[1..] == rest;
    cs
  }

  /** The list of a bound-only operation: the "deployed or loaded" guard
      comes before every argument check. */
  function Guarded(bound: bool, notBound: Failure, args: seq<Check>): (cs: seq<Check>)
    ensures !bound ==> FirstFailure(cs) == Some(notBound)
    ensures bound ==> FirstFailure(cs) == FirstFailure(args)
  {
    Before(Check(bound, notBound), args)
  }

  // ---- the fixed messages thrown without the error logger ----

  const MintQuantityText := "[ERC721UserMintable.mint] Quantity as integer value between 1 and 20 is required"
  const ReserveNotBoundText := "[ERC721UserMintable.reserve] A contract should be deployed or loaded first"
  const ReserveQuantityText := "[ERC721UserMintable.reserve] Quantity as integer value between 1 and 20 is required"
  const RevealNotBoundText := "[ERC721UserMintable.reveal] A contract should be deployed or loaded first!"
  const RevealBaseURIText := "[ERC721UserMintable.reveal] A valid base uri is required!"
  const SetPriceUndefinedText := "[ERC721UserMintable.setPrice] price cannot be undefined"

  // ---- the binding operations ----

  /** `deploy`: already bound, then no signer, then the five parameters. */
  function DeployChecks(bound: bool, hasSigner: bool, args: DeployArgs): (cs: seq<Check>)
    ensures FirstFailure(cs) ==
      if bound then Some(Logged(Location.Deploy, ContractAlreadyDeployed))
      else if !hasSigner then Some(Logged(Location.Deploy, NoSignerInstanceSupplied))
      else if !Truthy(args.name) then Some(Logged(Location.Deploy, NoNameSupplied))
      else if args.symbol.Undefined? then Some(Logged(Location.Deploy, NoSymbolSupplied))
      else if args.baseURI.Undefined? then Some(Logged(Location.Deploy, NoContractURISupplied))
      else if args.maxSupply.Undefined? then Some(Logged(Location.Deploy, InvalidMaxSupply))
      else if args.price.Undefined? then Some(Logged(Location.Deploy, InvalidPrice))
      else None
  {
    Before(Check(!bound, Logged(Location.Deploy, ContractAlreadyDeployed)),
    Before(Check(hasSigner, Logged(Location.Deploy, NoSignerInstanceSupplied)),
    Before(Check(Truthy(args.name), Logged(Location.Deploy, NoNameSupplied)),
    Before(Check(IsDefined(args.symbol), Logged(Location.Deploy, NoSymbolSupplied)),
    Before(Check(IsDefined(args.baseURI), Logged(Location.Deploy, NoContractURISupplied)),
    Before(Check(IsDefined(args.maxSupply), Logged(Location.Deploy, InvalidMaxSupply)),
    Before(Check(IsDefined(args.price), Logged(Location.Deploy, InvalidPrice)), [])))))))
  }

  /** `loadContract`: already bound, then the address. */
  function LoadChecks(bound: bool, isAddress: string -> bool, contractAddress: JsValue): (cs: seq<Check>)
    ensures FirstFailure(cs) ==
      if bound then Some(Logged(Location.LoadContract, ContractAlreadyLoaded))
      else if !(contractAddress.Str? && contractAddress.s != "" && isAddress(contractAddress.s))
      then Some(Logged(Location.LoadContract, InvalidContractAddress))
      else None
  {
    Before(Check(!bound, Logged(Location.LoadContract, ContractAlreadyLoaded)),
    Before(Check(AddressAccepted(isAddress, contractAddress), Logged(Location.LoadContract, InvalidContractAddress)), []))
  }

  // ---- the bound-only operations ----

  function MintChecks(bound: bool, quantity: JsValue): (cs: seq<Check>)
    ensures FirstFailure(cs) ==
      if !bound then Some(Logged(Location.Mint, ContractNotDeployedOrLoaded))
      else if !(quantity.Int? && 1 <= quantity.n <= 20) then Some(Literal(MintQuantityText))
      else None
  {
    Guarded(bound, Logged(Location.Mint, ContractNotDeployedOrLoaded),
      Before(Check(QuantityAccepted(quantity), Literal(MintQuantityText)), []))
  }

  function ReserveChecks(bound: bool, quantity: JsValue): (cs: seq<Check>)
    ensures FirstFailure(cs) ==
      if !bound then Some(Literal(ReserveNotBoundText))
      else if !(quantity.Int? && 1 <= quantity.n <= 20) then Some(Literal(ReserveQuantityText))
      else None
  {
    Guarded(bound, Literal(ReserveNotBoundText),
      Before(Check(QuantityAccepted(quantity), Literal(ReserveQuantityText)), []))
  }

  function RevealChecks(bound: bool, baseURI: JsValue): (cs: seq<Check>)
    ensures FirstFailure(cs) ==
      if !bound then Some(Literal(RevealNotBoundText))
      else if !Truthy(baseURI) then Some(Literal(RevealBaseURIText))
      else None
  {
    Guarded(bound, Literal(RevealNotBoundText),
      Before(Check(Truthy(baseURI), Literal(RevealBaseURIText)), []))
  }

  /** `tokenId` need only be defined (0 passes); `sellPrice` must be truthy
      (0 fails). */
  function RoyaltyInfoChecks(bound: bool, tokenId: JsValue, sellPrice: JsValue): (cs: seq<Check>)
    ensures FirstFailure(cs) ==
      if !bound then Some(Logged(Location.RoyaltyInfo, ContractNotDeployed))
      else if tokenId.Undefined? then Some(Logged(Location.RoyaltyInfo, NoTokenIdSupplied))
      else if !Truthy(sellPrice) then Some(Logged(Location.RoyaltyInfo, NoSellPriceSupplied))
      else None
  {
    Guarded(bound, Logged(Location.RoyaltyInfo, ContractNotDeployed),
      Before(Check(IsDefined(tokenId), Logged(Location.RoyaltyInfo, NoTokenIdSupplied)),
      Before(Check(Truthy(sellPrice), Logged(Location.RoyaltyInfo, NoSellPriceSupplied)), [])))
  }

  function SetBaseURIChecks(bound: bool, baseURI: JsValue): (cs: seq<Check>)
    ensures FirstFailure(cs) ==
      if !bound then Some(Logged(Location.SetContractURI, ContractNotDeployedOrLoaded))
      else if !Truthy(baseURI) then Some(Logged(Location.SetContractURI, InvalidContractURI))
      else None
  {
    Guarded(bound, Logged(Location.SetContractURI, ContractNotDeployedOrLoaded),
      Before(Check(Truthy(baseURI), Logged(Location.SetContractURI, InvalidContractURI)), []))
  }

  function SetPriceChecks(bound: bool, price: JsValue): (cs: seq<Check>)
    ensures FirstFailure(cs) ==
      if !bound then Some(Logged(Location.SetPrice, ContractNotDeployed))
      else if price.Undefined? then Some(Literal(SetPriceUndefinedText))
      else None
  {
    Guarded(bound, Logged(Location.SetPrice, ContractNotDeployed),
      Before(Check(IsDefined(price), Literal(SetPriceUndefinedText)), []))
  }

  function SetRoyaltiesChecks(bound: bool, isAddress: string -> bool, publicAddress: JsValue, fee: JsValue): (cs: seq<Check>)
    ensures FirstFailure(cs) ==
      if !bound then Some(Logged(Location.SetRoyalties, ContractNotDeployed))
      else if !(publicAddress.Str? && publicAddress.s != "" && isAddress(publicAddress.s))
      then Some(Logged(Location.SetRoyalties, NoAddressSupplied))
      else if !(fee.Int? && 1 <= fee.n <= 9999) then Some(Logged(Location.SetRoyalties, FeeMustBeBetween0And10000))
      else None
  {
    Guarded(bound, Logged(Location.SetRoyalties, ContractNotDeployed),
      Before(Check(AddressAccepted(isAddress, publicAddress), Logged(Location.SetRoyalties, NoAddressSupplied)),
      Before(Check(FeeAccepted(fee), Logged(Location.SetRoyalties, FeeMustBeBetween0And10000)), [])))
  }

  function ToggleSaleChecks(bound: bool): (cs: seq<Check>)
    ensures FirstFailure(cs) == if !bound then Some(Logged(Location.ToggleSale, ContractNotDeployed)) else None
  {
    Guarded(bound, Logged(Location.ToggleSale, ContractNotDeployed), [])
  }

  /** `from`, then `to`, then `Number.isInteger(tokenId)` (0 passes). */
  function TransferChecks(bound: bool, isAddress: string -> bool, from: JsValue, to: JsValue, tokenId: JsValue): (cs: seq<Check>)
    ensures FirstFailure(cs) ==
      if !bound then Some(Logged(Location.Transfer, ContractNotDeployedOrLoaded))
      else if !(from.Str? && from.s != "" && isAddress(from.s)) then Some(Logged(Location.Transfer, InvalidFromAddress))
      else if !(to.Str? && to.s != "" && isAddress(to.s)) then Some(Logged(Location.Transfer, InvalidToAddress))
      else if !tokenId.Int? then Some(Logged(Location.Transfer, TokenIdMustBeInteger))
      else None
  {
    Guarded(bound, Logged(Location.Transfer, ContractNotDeployedOrLoaded),
      Before(Check(AddressAccepted(isAddress, from), Logged(Location.Transfer, InvalidFromAddress)),
      Before(Check(AddressAccepted(isAddress, to), Logged(Location.Transfer, InvalidToAddress)),
      Before(Check(IsInteger(tokenId), Logged(Location.Transfer, TokenIdMustBeInteger)), []))))
  }

  function SetApprovalForAllChecks(bound: bool, isAddress: string -> bool, to: JsValue, approvalStatus: JsValue): (cs: seq<Check>)
    ensures FirstFailure(cs) ==
      if !bound then Some(Logged(Location.SetApprovalForAll, ContractNotDeployedOrLoaded))
      else if !(to.Str? && to.s != "" && isAddress(to.s)) then Some(Logged(Location.SetApprovalForAll, NoToAddress))
      else if !approvalStatus.Bool? then Some(Logged(Location.SetApprovalForAll, ApprovalStatusMustBeBoolean))
      else None
  {
    Guarded(bound, Logged(Location.SetApprovalForAll, ContractNotDeployedOrLoaded),
      Before(Check(AddressAccepted(isAddress, to), Logged(Location.SetApprovalForAll, NoToAddress)),
      Before(Check(IsBoolean(approvalStatus), Logged(Location.SetApprovalForAll, ApprovalStatusMustBeBoolean)), [])))
  }

  function ApproveTransferChecks(bound: bool, isAddress: string -> bool, to: JsValue, tokenId: JsValue): (cs: seq<Check>)
    ensures FirstFailure(cs) ==
      if !bound then Some(Logged(Location.ApproveTransfer, ContractNotDeployedOrLoaded))
      else if !(to.Str? && to.s != "" && isAddress(to.s)) then Some(Logged(Location.ApproveTransfer, InvalidToAddress))
      else if !tokenId.Int? then Some(Logged(Location.ApproveTransfer, TokenIdMustBeInteger))
      else None
  {
    Guarded(bound, Logged(Location.ApproveTransfer, ContractNotDeployedOrLoaded),
      Before(Check(AddressAccepted(isAddress, to), Logged(Location.ApproveTransfer, InvalidToAddress)),
      Before(Check(IsInteger(tokenId), Logged(Location.ApproveTransfer, TokenIdMustBeInteger)), [])))
  }

  function RenounceOwnershipChecks(bound: bool): (cs: seq<Check>)
    ensures FirstFailure(cs) == if !bound then Some(Logged(Location.RenounceOwnership, ContractNotDeployed)) else None
  {
    Guarded(bound, Logged(Location.RenounceOwnership, ContractNotDeployed), [])
  }

  function WithdrawChecks(bound: bool): (cs: seq<Check>)
    ensures FirstFailure(cs) == if !bound then Some(Logged(Location.Withdraw, ContractNotDeployed)) else None
  {
    Guarded(bound, Logged(Location.Withdraw, ContractNotDeployed), [])
  }

}
