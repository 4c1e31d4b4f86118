/** The contract handle for the user-mintable ERC-721 template: a signer
    given at construction, a one-shot binding by `Deploy` or
    `LoadContract`, and guarded operations on the bound contract. Every
    entry into an external step is appended to the ghost log `calls`, so
    that "no external call was made" can be stated. */
module UserMintable {
  import opened Wrappers
  import opened JsValues
  import opened Errors
  import opened Chain
  import opened Checks
  import opened Lifecycle

  class ERC721UserMintable {
    var contractAddress: Option<string>
    var contractDeployed: Option<ContractRef>
    const signer: Option<Signer>
    ghost var calls: seq<ExternalCall>

    function State(): Binding
      reads this
    {
      Binding(contractAddress, contractDeployed)
    }

    /** The class invariant: both fields set, or neither. */
    ghost predicate Valid()
      reads this
    {
      Consistent(State())
    }

    /** "Deployed or loaded", the guard of every bound-only operation. */
    predicate Bound()
      reads this
    {
      IsBound(State())
    }

    constructor (signer: Option<Signer>)
      ensures Valid()
      ensures this.signer == signer && State() == Unbound && calls == []
    {
      this.signer := signer;
      contractAddress := None;
      contractDeployed := None;
      calls := [];
    }

    method Deploy(args: DeployArgs, outcome: DeployOutcome) returns (r: Result<()>)
      requires Valid()
      modifies this`contractAddress, this`contractDeployed, this`calls
      ensures Valid()
      ensures var t := DeployStep(old(State()), signer, args, outcome);
              r == t.result && State() == t.after && calls == old(calls) + t.calls
    {
      if Bound() {
        return Err(Logged(Location.Deploy, ContractAlreadyDeployed));
      }
      if signer.None? {
        return Err(Logged(Location.Deploy, NoSignerInstanceSupplied));
      }
      if !Truthy(args.name) {
        return Err(Logged(Location.Deploy, NoNameSupplied));
      }
      if args.symbol.Undefined? {
        return Err(Logged(Location.Deploy, NoSymbolSupplied));
      }
      if args.baseURI.Undefined? {
        return Err(Logged(Location.Deploy, NoContractURISupplied));
      }
      if args.maxSupply.Undefined? {
        return Err(Logged(Location.Deploy, InvalidMaxSupply));
      }
      if args.price.Undefined? {
        return Err(Logged(Location.Deploy, InvalidPrice));
      }
      calls := calls + [EnterDeploy(args, signer)];
      match outcome {
        case Deployed(address) =>
          contractDeployed := Some(ContractRef(address, signer));
          contractAddress := Some(address);
          r := Ok(());
        case DeployThrows(cause) =>
          r := Err(Wrapped(Operation.Deploy, cause));
      }
    }

    method LoadContract(isAddress: string -> bool, contractAddress: JsValue, outcome: CallOutcome<()>) returns (r: Result<()>)
      requires Valid()
      modifies this`contractAddress, this`contractDeployed, this`calls
      ensures Valid()
      ensures var t := LoadStep(old(State()), signer, isAddress, contractAddress, outcome);
              r == t.result && State() == t.after && calls == old(calls) + t.calls
    {
      if Bound() {
        return Err(Logged(Location.LoadContract, ContractAlreadyLoaded));
      }
      if !Truthy(contractAddress) || !(contractAddress.Str? && isAddress(contractAddress.s)) {
        return Err(Logged(Location.LoadContract, InvalidContractAddress));
      }
      calls := calls + [NewContract(contractAddress.s, signer)];
      match outcome {
        case Returns(_) =>
          contractDeployed := Some(ContractRef(contractAddress.s, signer));
          this.contractAddress := Some(contractAddress.s);
          r := Ok(());
        case Throws(cause) =>
          r := Err(Wrapped(Operation.LoadContract, cause));
      }
    }

    /** `mint`: the guards, then `parseEther(cost)` outside the try block (its
        error escapes unwrapped), then the contract call. `costParse` is what
        that parse does with `cost`; `cost` itself is read by nothing else. */
    method Mint(quantity: JsValue, costParse: ParseOutcome, outcome: CallOutcome<Transaction>) returns (r: Result<Transaction>)
      requires Valid()
      modifies this`calls
      ensures Valid()
      ensures var failure := FirstFailure(MintChecks(Bound(), quantity));
              if failure.Some? then r == Err(failure.value) && calls == old(calls)
              else if costParse.ParseThrows? then r == Err(Uncaught(costParse.message)) && calls == old(calls)
              else r == Rewrap(Operation.Mint, outcome) && calls == old(calls) + [MintTokens(quantity, costParse.wei, GasLimit)]
    {
      var failure := FirstFailure(MintChecks(Bound(), quantity));
      if failure.Some? {
        return Err(failure.value);
      }
      match costParse {
        case ParseThrows(message) =>
          return Err(Uncaught(message));
        case Parsed(wei) =>
          calls := calls + [MintTokens(quantity, wei, GasLimit)];
          r := Rewrap(Operation.Mint, outcome);
      }
    }

    /** `price` has no "deployed or loaded" guard: on an unbound handle the
        property access on the unset contract throws a local error, which the
        catch block rewraps like any other (`localError` is how the network
        error handler classifies it). */
    method Price(localError: Classified, outcome: CallOutcome<string>) returns (r: Result<string>)
      requires Valid()
      modifies this`calls
      ensures Valid()
      ensures !Bound() ==> r == Err(Wrapped(Operation.Price, localError)) && calls == old(calls)
      ensures Bound() ==> r == Rewrap(Operation.Price, outcome) && calls == old(calls) + [ReadPrice]
    {
      if contractDeployed.None? {
        return Err(Wrapped(Operation.Price, localError));
      }
      calls := calls + [ReadPrice];
      r := Rewrap(Operation.Price, outcome);
    }

    /** The shared shape of the remaining operations: the guard list, then
        one external call made only when every check passes. */
    method Call<T>(checks: seq<Check>, op: Operation, call: ExternalCall, outcome: CallOutcome<T>) returns (r: Result<T>)
      modifies this`calls
      ensures var e := GuardedCall(checks, op, call, outcome);
              r == e.result && calls == old(calls) + e.calls
    {
      var failure := FirstFailure(checks);
      if failure.Some? {
        return Err(failure.value);
      }
      calls := calls + [call];
      r := Rewrap(op, outcome);
    }

    method Reserve(quantity: JsValue, outcome: CallOutcome<Transaction>) returns (r: Result<Transaction>)
      requires Valid()
      modifies this`calls
      ensures Valid()
      ensures var e := GuardedCall(ReserveChecks(Bound(), quantity), Operation.Reserve, ReserveTokens(quantity), outcome);
              r == e.result && calls == old(calls) + e.calls
    {
      r := Call(ReserveChecks(Bound(), quantity), Operation.Reserve, ReserveTokens(quantity), outcome);
    }

    method Reveal(baseURI: JsValue, outcome: CallOutcome<Transaction>) returns (r: Result<Transaction>)
      requires Valid()
      modifies this`calls
      ensures Valid()
      ensures var e := GuardedCall(RevealChecks(Bound(), baseURI), Operation.Reveal, RevealWith(baseURI), outcome);
              r == e.result && calls == old(calls) + e.calls
    {
      r := Call(RevealChecks(Bound(), baseURI), Operation.Reveal, RevealWith(baseURI), outcome);
    }

    method RoyaltyInfo(tokenId: JsValue, sellPrice: JsValue, outcome: CallOutcome<RoyaltyQuote>) returns (r: Result<RoyaltyQuote>)
      requires Valid()
      modifies this`calls
      ensures Valid()
      ensures var e := GuardedCall(RoyaltyInfoChecks(Bound(), tokenId, sellPrice), Operation.RoyaltyInfo,
                                   ReadRoyaltyInfo(tokenId, sellPrice), outcome);
              r == e.result && calls == old(calls) + e.calls
    {
      r := Call(RoyaltyInfoChecks(Bound(), tokenId, sellPrice), Operation.RoyaltyInfo, ReadRoyaltyInfo(tokenId, sellPrice), outcome);
    }

    method SetBaseURI(baseURI: JsValue, outcome: CallOutcome<Transaction>) returns (r: Result<Transaction>)
      requires Valid()
      modifies this`calls
      ensures Valid()
      ensures var e := GuardedCall(SetBaseURIChecks(Bound(), baseURI), Operation.SetBaseURI, SetBaseURIOf(baseURI), outcome);
              r == e.result && calls == old(calls) + e.calls
    {
      r := Call(SetBaseURIChecks(Bound(), baseURI), Operation.SetBaseURI, SetBaseURIOf(baseURI), outcome);
    }

    /** `parseEther(price)` runs inside the try block, so its error is part
        of `outcome` and is rewrapped. */
    method SetPrice(price: JsValue, outcome: CallOutcome<Transaction>) returns (r: Result<Transaction>)
      requires Valid()
      modifies this`calls
      ensures Valid()
      ensures var e := GuardedCall(SetPriceChecks(Bound(), price), Operation.SetPrice, EnterSetPrice(price), outcome);
              r == e.result && calls == old(calls) + e.calls
    {
      r := Call(SetPriceChecks(Bound(), price), Operation.SetPrice, EnterSetPrice(price), outcome);
    }

    method SetRoyalties(isAddress: string -> bool, publicAddress: JsValue, fee: JsValue, outcome: CallOutcome<Transaction>) returns (r: Result<Transaction>)
      requires Valid()
      modifies this`calls
      ensures Valid()
      ensures var e := GuardedCall(SetRoyaltiesChecks(Bound(), isAddress, publicAddress, fee), Operation.SetRoyalties,
                                   SetRoyaltiesTo(publicAddress, fee, GasLimit), outcome);
              r == e.result && calls == old(calls) + e.calls
    {
      r := Call(SetRoyaltiesChecks(Bound(), isAddress, publicAddress, fee), Operation.SetRoyalties,
                SetRoyaltiesTo(publicAddress, fee, GasLimit), outcome);
    }

    method ToggleSale(outcome: CallOutcome<Transaction>) returns (r: Result<Transaction>)
      requires Valid()
      modifies this`calls
      ensures Valid()
      ensures var e := GuardedCall(ToggleSaleChecks(Bound()), Operation.ToggleSale, ToggleSaleState, outcome);
              r == e.result && calls == old(calls) + e.calls
    {
      r := Call(ToggleSaleChecks(Bound()), Operation.ToggleSale, ToggleSaleState, outcome);
    }

    method Transfer(isAddress: string -> bool, from: JsValue, to: JsValue, tokenId: JsValue, outcome: CallOutcome<Transaction>) returns (r: Result<Transaction>)
      requires Valid()
      modifies this`calls
      ensures Valid()
      ensures var e := GuardedCall(TransferChecks(Bound(), isAddress, from, to, tokenId), Operation.Transfer,
                                   SafeTransferFrom(from, to, tokenId, GasLimit), outcome);
              r == e.result && calls == old(calls) + e.calls
    {
      r := Call(TransferChecks(Bound(), isAddress, from, to, tokenId), Operation.Transfer,
                SafeTransferFrom(from, to, tokenId, GasLimit), outcome);
    }

    method SetApprovalForAll(isAddress: string -> bool, to: JsValue, approvalStatus: JsValue, outcome: CallOutcome<Transaction>) returns (r: Result<Transaction>)
      requires Valid()
      modifies this`calls
      ensures Valid()
      ensures var e := GuardedCall(SetApprovalForAllChecks(Bound(), isAddress, to, approvalStatus), Operation.SetApprovalForAll,
                                   SetApprovalForAllOf(to, approvalStatus), outcome);
              r == e.result && calls == old(calls) + e.calls
    {
      r := Call(SetApprovalForAllChecks(Bound(), isAddress, to, approvalStatus), Operation.SetApprovalForAll,
                SetApprovalForAllOf(to, approvalStatus), outcome);
    }

    method ApproveTransfer(isAddress: string -> bool, to: JsValue, tokenId: JsValue, outcome: CallOutcome<Transaction>) returns (r: Result<Transaction>)
      requires Valid()
      modifies this`calls
      ensures Valid()
      ensures var e := GuardedCall(ApproveTransferChecks(Bound(), isAddress, to, tokenId), Operation.ApproveTransfer,
                                   ApproveOne(to, tokenId), outcome);
              r == e.result && calls == old(calls) + e.calls
    {
      r := Call(ApproveTransferChecks(Bound(), isAddress, to, tokenId), Operation.ApproveTransfer, ApproveOne(to, tokenId), outcome);
    }

    method RenounceOwnership(outcome: CallOutcome<Transaction>) returns (r: Result<Transaction>)
      requires Valid()
      modifies this`calls
      ensures Valid()
      ensures var e := GuardedCall(RenounceOwnershipChecks(Bound()), Operation.RenounceOwnership, RenounceContractOwnership, outcome);
              r == e.result && calls == old(calls) + e.calls
    {
      r := Call(RenounceOwnershipChecks(Bound()), Operation.RenounceOwnership, RenounceContractOwnership, outcome);
    }

    method Withdraw(outcome: CallOutcome<Transaction>) returns (r: Result<Transaction>)
      requires Valid()
      modifies this`calls
      ensures Valid()
      ensures var e := GuardedCall(WithdrawChecks(Bound()), Operation.Withdraw, WithdrawBalance, outcome);
              r == e.result && calls == old(calls) + e.calls
    {
      r := Call(WithdrawChecks(Bound()), Operation.Withdraw, WithdrawBalance, outcome);
    }
  }

  /** A client of the class: two binding attempts on a fresh handle. If the
      first succeeds, the second is refused with the reason its kind of
      attempt reports, and the address bound by the first stays. */
  method BindTwice(signer: Option<Signer>, isAddress: string -> bool, first: BindRequest, second: BindRequest)
    returns (r1: Result<()>, r2: Result<()>, address: Option<string>)
    ensures r1.Ok? ==> r2 == Err(if second.DeployRequest? then Logged(Location.Deploy, ContractAlreadyDeployed)
                                 else Logged(Location.LoadContract, ContractAlreadyLoaded))
    ensures r1.Ok? ==> match first
                       case DeployRequest(_, outcome) => outcome.Deployed? && address == Some(outcome.address)
                       case LoadRequest(argument, _) => argument.Str? && address == Some(argument.s)
    ensures r1.Err? ==> r2.Ok? == (address.Some?)
  {
    var h := new ERC721UserMintable(signer);
    r1 := Attempt(h, isAddress, first);
    r2 := Attempt(h, isAddress, second);
    address := h.contractAddress;
  }

  method Attempt(h: ERC721UserMintable, isAddress: string -> bool, req: BindRequest) returns (r: Result<()>)
    requires h.Valid()
    modifies h`contractAddress, h`contractDeployed, h`calls
    ensures h.Valid()
    ensures var t := Serve(old(h.State()), h.signer, isAddress, req);
            r == t.result && h.State() == t.after && h.calls == old(h.calls) + t.calls
  {
    match req {
      case DeployRequest(args, outcome) => r := h.Deploy(args, outcome);
      case LoadRequest(contractAddress, outcome) => r := h.LoadContract(isAddress, contractAddress, outcome);
    }
  }

}
