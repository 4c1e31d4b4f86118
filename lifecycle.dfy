/** The handle's life cycle as values: the two fields that record a
    binding, the one-shot `deploy` and `loadContract` transitions, the
    guarded external call every other operation makes, and what any
    sequence of binding attempts can do to a handle. */
module Lifecycle {
  import opened Wrappers
  import opened JsValues
  import opened Errors
  import opened Chain
  import opened Checks

  /** `contractAddress` and `#contractDeployed`; both unset on a new handle. */
  datatype Binding = Binding(contractAddress: Option<string>, contractDeployed: Option<ContractRef>)

  const Unbound := Binding(None, None)

  /** The class's guard `this.contractAddress || this.#contractDeployed`:
      an unset field is `undefined`, so the address counts only when it is
      a non-empty string, and a set contract object always counts. */
  predicate IsBound(b: Binding): (r: bool)
    ensures r <==> Truthy(if b.contractAddress.Some? then Str(b.contractAddress.value) else Undefined)
                   || b.contractDeployed.Some?
    ensures b.contractDeployed.None? && b.contractAddress in {None, Some("")} ==> !r
    ensures Consistent(b) ==> (r <==> b.contractDeployed.Some?)
  {
    (b.contractAddress.Some? && b.contractAddress.value != "") || b.contractDeployed.Some?
  }

  /** The two fields are set together, and the contract object talks to the
      recorded address. */
  predicate Consistent(b: Binding) {
    && (b.contractAddress.Some? <==> b.contractDeployed.Some?)
    && (b.contractDeployed.Some? ==> b.contractDeployed.value.address == b.contractAddress.value)
  }

  /** What a binding attempt reports, the external steps it entered, and the
      binding afterwards. */
  datatype Transition = Transition(result: Result<()>, calls: seq<ExternalCall>, after: Binding)

  /** `deploy`: the ordered checks, then the factory; the fields are written
      only once the contract is deployed. */
  function DeployStep(b: Binding, signer: Option<Signer>, args: DeployArgs, outcome: DeployOutcome): (t: Transition)
    ensures Consistent(b) ==> Consistent(t.after)
    ensures IsBound(b) ==> t == Transition(Err(Logged(Location.Deploy, ContractAlreadyDeployed)), [], b)
    ensures t.calls != [] <==> AllPass(DeployChecks(IsBound(b), signer.Some?, args))
    ensures !AllPass(DeployChecks(IsBound(b), signer.Some?, args))
            ==> t.result == Err(FirstFailure(DeployChecks(IsBound(b), signer.Some?, args)).value)
    ensures t.calls != [] ==> t.calls == [EnterDeploy(args, signer)]
    ensures t.result.Ok? <==> t.calls != [] && outcome.Deployed?
    ensures t.result.Ok? ==> t.after == Binding(Some(outcome.address), Some(ContractRef(outcome.address, signer)))
    ensures t.result.Err? ==> t.after == b
    ensures t.calls != [] && outcome.DeployThrows? ==> t.result == Err(Wrapped(Operation.Deploy, outcome.cause))
  {
    match FirstFailure(DeployChecks(IsBound(b), signer.Some?, args))
    case Some(f) => Transition(Err(f), [], b)
    case None =>
      var call := EnterDeploy(args, signer);
      match outcome
      case Deployed(address) => Transition(Ok(()), [call], Binding(Some(address), Some(ContractRef(address, signer))))
      case DeployThrows(cause) => Transition(Err(Wrapped(Operation.Deploy, cause)), [call], b)
  }

  /** `loadContract`: the ordered checks, then the contract object; on
      success the address recorded is the argument itself. */
  function LoadStep(b: Binding, signer: Option<Signer>, isAddress: string -> bool, contractAddress: JsValue, outcome: CallOutcome<()>): (t: Transition)
    ensures Consistent(b) ==> Consistent(t.after)
    ensures IsBound(b) ==> t == Transition(Err(Logged(Location.LoadContract, ContractAlreadyLoaded)), [], b)
    ensures !IsBound(b) && !AddressAccepted(isAddress, contractAddress)
            ==> t == Transition(Err(Logged(Location.LoadContract, InvalidContractAddress)), [], b)
    ensures t.calls != [] <==> !IsBound(b) && AddressAccepted(isAddress, contractAddress)
    ensures t.calls != [] ==> t.calls == [NewContract(contractAddress.s, signer)]
    ensures t.result.Ok? <==> t.calls != [] && outcome.Returns?
    ensures t.result.Ok? ==> t.after == Binding(Some(contractAddress.s), Some(ContractRef(contractAddress.s, signer)))
    ensures t.result.Err? ==> t.after == b
    ensures t.calls != [] && outcome.Throws? ==> t.result == Err(Wrapped(Operation.LoadContract, outcome.cause))
  {
    match FirstFailure(LoadChecks(IsBound(b), isAddress, contractAddress))
    case Some(f) => Transition(Err(f), [], b)
    case None =>
      var address := contractAddress.s;
      var call := NewContract(address, signer);
      match outcome
      case Returns(_) => Transition(Ok(()), [call], Binding(Some(address), Some(ContractRef(address, signer))))
      case Throws(cause) => Transition(Err(Wrapped(Operation.LoadContract, cause)), [call], b)
  }

  /** What an operation that does not bind reports, and the external steps
      it entered. */
  datatype Effect<T> = Effect(result: Result<T>, calls: seq<ExternalCall>)

  /** The pattern every bound-only operation follows: its checks in order,
      and the one external call only when all of them pass. */
  function GuardedCall<T>(checks: seq<Check>, op: Operation, call: ExternalCall, outcome: CallOutcome<T>): (e: Effect<T>)
    ensures e.calls == [] <==> !AllPass(checks)
    ensures e.calls != [] ==> e.calls == [call]
    ensures !AllPass(checks) ==> e.result == Err(FirstFailure(checks).value)
    ensures e.result.Ok? <==> AllPass(checks) && outcome.Returns?
    ensures e.result.Ok? ==> e.result.value == outcome.value
    ensures AllPass(checks) && outcome.Throws? ==> e.result == Err(Wrapped(op, outcome.cause))
  {
    match FirstFailure(checks)
    case Some(f) => Effect(Err(f), [])
    case None => Effect(Rewrap(op, outcome), [call])
  }

  // ---- sequences of binding attempts ----

  datatype BindRequest =
    | DeployRequest(args: DeployArgs, deployOutcome: DeployOutcome)
    | LoadRequest(contractAddress: JsValue, loadOutcome: CallOutcome<()>)

  function Serve(b: Binding, signer: Option<Signer>, isAddress: string -> bool, req: BindRequest): Transition {
    match req
    case DeployRequest(args, outcome) => DeployStep(b, signer, args, outcome)
    case LoadRequest(address, outcome) => LoadStep(b, signer, isAddress, address, outcome)
  }

  /** The reports of a run of binding attempts on one handle, and the
      binding it ends with. */
  datatype History = History(results: seq<Result<()>>, final: Binding)

  function Replay(b: Binding, signer: Option<Signer>, isAddress: string -> bool, reqs: seq<BindRequest>): (h: History)
    ensures |h.results| == |reqs|
    decreases |reqs|
  {
    if reqs == [] then History([], b)
    else
      var t := Serve(b, signer, isAddress, reqs[0]);
      var rest := Replay(t.after, signer, isAddress, reqs[1..]);
      History([t.result] + rest.results, rest.final)
  }

  /** A bound handle refuses any single binding attempt and keeps its binding. */
  lemma BoundRefuses(b: Binding, signer: Option<Signer>, isAddress: string -> bool, req: BindRequest)
    requires IsBound(b)
    ensures Serve(b, signer, isAddress, req).after == b
    ensures Serve(b, signer, isAddress, req).result.Err?
  {
    match req
    case DeployRequest(args, outcome) => assert DeployStep(b, signer, args, outcome).after == b;
    case LoadRequest(address, outcome) => assert LoadStep(b, signer, isAddress, address, outcome).after == b;
  }

  /** Once bound, a handle is inert to binding: every further attempt fails
      and the binding never changes. */
  lemma {:induction false} BoundHandleIsInert(b: Binding, signer: Option<Signer>, isAddress: string -> bool, reqs: seq<BindRequest>)
    requires IsBound(b)
    ensures Replay(b, signer, isAddress, reqs).final == b
    ensures forall i :: 0 <= i < |reqs| ==> Replay(b, signer, isAddress, reqs).results[i].Err?
    decreases |reqs|
  {
    if reqs != [] {
      var t := Serve(b, signer, isAddress, reqs[0]);
      BoundRefuses(b, signer, isAddress, reqs[0]);
      BoundHandleIsInert(b, signer, isAddress, reqs[1..]);
      var h := Replay(b, signer, isAddress, reqs);
      var rest := Replay(b, signer, isAddress, reqs[1..]);
      assert h.results == [t.result] + rest.results;
      forall i | 0 < i < |reqs| ensures h.results[i].Err? {
        assert h.results[i] == rest.results[i - 1];
      }
    }
  }

  /** No report after a success is another success. */
  predicate OneShot(results: seq<Result<()>>) {
    forall i, j :: 0 <= i < j < |results| && results[i].Ok? ==> results[j].Err?
  }

  lemma OneShotCons(r: Result<()>, rest: seq<Result<()>>)
    requires OneShot(rest)
    requires r.Ok? ==> forall k :: 0 <= k < |rest| ==> rest[k].Err?
    ensures OneShot([r] + rest)
  {
    var results := [r] + rest;
    forall i, j | 0 <= i < j < |results| && results[i].Ok? ensures results[j].Err? {
      assert results[j] == rest[j - 1];
      if i > 0 { assert results[i] == rest[i - 1]; }
    }
  }

  /** A successful attempt leaves the handle bound. */
  lemma SuccessBinds(b: Binding, signer: Option<Signer>, isAddress: string -> bool, req: BindRequest)
    requires Serve(b, signer, isAddress, req).result.Ok?
    ensures IsBound(Serve(b, signer, isAddress, req).after)
  {
  }

  /** Binding is one-shot: in the reports of any run, every attempt after a
      success fails. */
  lemma {:induction false} AtMostOneBind(b: Binding, signer: Option<Signer>, isAddress: string -> bool, reqs: seq<BindRequest>)
    ensures OneShot(Replay(b, signer, isAddress, reqs).results)
    decreases |reqs|
  {
    if reqs != [] {
      var t := Serve(b, signer, isAddress, reqs[0]);
      var rest := Replay(t.after, signer, isAddress, reqs[1..]);
      assert Replay(b, signer, isAddress, reqs).results == [t.result] + rest.results;
      AtMostOneBind(t.after, signer, isAddress, reqs[1..]);
      if t.result.Ok? {
        SuccessBinds(b, signer, isAddress, reqs[0]);
        BoundHandleIsInert(t.after, signer, isAddress, reqs[1..]);
      }
      OneShotCons(t.result, rest.results);
    }
  }

  /** No run of binding attempts breaks the two fields' agreement. */
  lemma {:induction false} ReplayKeepsConsistent(b: Binding, signer: Option<Signer>, isAddress: string -> bool, reqs: seq<BindRequest>)
    requires Consistent(b)
    ensures Consistent(Replay(b, signer, isAddress, reqs).final)
    decreases |reqs|
  {
    if reqs != [] {
      var t := Serve(b, signer, isAddress, reqs[0]);
      ReplayKeepsConsistent(t.after, signer, isAddress, reqs[1..]);
    }
  }

}
