/** The external collaborators the handle talks to, seen only through what
    it sends them and what it gets back: the contract factory, the contract
    object and the signer. What the chain does with a call is not modelled;
    its outcome is an input of each operation. */
module Chain {
  import opened Wrappers
  import opened JsValues
  import opened Errors

  /** The signer supplied at construction (borrowed, never changed). */
  datatype Signer = Signer(account: string)

  /** A bound contract object: the address it talks to and the signer it
      was created with. */
  datatype ContractRef = ContractRef(address: string, signer: Option<Signer>)

  /** A submitted transaction, returned by the writing operations. */
  datatype Transaction = Transaction(hash: string)

  /** What `royaltyInfo` returns: the receiver and the royalty amount. */
  datatype RoyaltyQuote = RoyaltyQuote(receiver: string, amount: int)

  /** The gas ceiling the handle attaches to `mint`, `setRoyalties` and
      `safeTransferFrom`. */
  const GasLimit: nat := 6000000

  /** The object `deploy` destructures. */
  datatype DeployArgs = DeployArgs(name: JsValue, symbol: JsValue, baseURI: JsValue, maxSupply: JsValue, price: JsValue)

  /** One entry into an external step, with the arguments it is given.
      `EnterDeploy` and `EnterSetPrice` mark entry into a step that parses
      the price first; that parse may throw before the factory or the
      contract is called. */
  datatype ExternalCall =
    | EnterDeploy(args: DeployArgs, signer: Option<Signer>)
    | NewContract(address: string, signer: Option<Signer>)
    | MintTokens(quantity: JsValue, valueWei: int, gasLimit: nat)
    | ReadPrice
    | ReserveTokens(quantity: JsValue)
    | RevealWith(baseURI: JsValue)
    | ReadRoyaltyInfo(tokenId: JsValue, sellPrice: JsValue)
    | SetBaseURIOf(baseURI: JsValue)
    | EnterSetPrice(price: JsValue)
    | SetRoyaltiesTo(receiver: JsValue, fee: JsValue, gasLimit: nat)
    | ToggleSaleState
    | SafeTransferFrom(from: JsValue, to: JsValue, tokenId: JsValue, gasLimit: nat)
    | SetApprovalForAllOf(operator: JsValue, approved: JsValue)
    | ApproveOne(to: JsValue, tokenId: JsValue)
    | RenounceContractOwnership
    | WithdrawBalance

  /** How an external step ends: with a value, or with a thrown error as the
      network error handler classifies it. */
  datatype CallOutcome<T> = Returns(value: T) | Throws(cause: Classified)

  /** How the deployment step ends: the deployed contract's address, or a
      thrown error (from parsing the price, the factory or the wait). */
  datatype DeployOutcome = Deployed(address: string) | DeployThrows(cause: Classified)

  /** What `ethers.utils.parseEther` does with a price string. */
  datatype ParseOutcome = Parsed(wei: int) | ParseThrows(message: string)

  /** The catch block shared by every operation: a thrown error is rewrapped
      under the operation's name, a returned value is passed through. */
  function Rewrap<T>(op: Operation, outcome: CallOutcome<T>): (r: Result<T>)
    ensures r.Ok? <==> outcome.Returns?
    ensures r.Ok? ==> r.value == outcome.value
    ensures outcome.Throws? ==> r == Err(Wrapped(op, outcome.cause))
  {
    match outcome
    case Returns(v) => Ok(v)
    case Throws(cause) => Err(Wrapped(op, cause))
  }

}
