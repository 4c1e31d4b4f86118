# ERC721UserMintable contract handle, modelled in Dafny

This project models the client-side handle for the user-mintable ERC-721 contract template of an NFT SDK (`src/lib/ContractTemplates/ERC721UserMintable.js`). A handle is created with a signer and starts unbound. Exactly one of `deploy` (through the contract factory) or `loadContract` (an existing address) binds it. Every other operation does three things in order:

1. It checks that the handle is "deployed or loaded".
2. It runs an ordered, fail-fast list of argument checks on JavaScript values. The checks cover truthiness, `=== undefined`, `Number.isInteger`, the ranges 1..20 and 1..9999, address shape and boolean type.
3. Only then does it make one external contract call. A failure of that call is rewrapped as `[<type>[ERC721UserMintable.<op>] An error occured: <message>`.

Files and modules:

- `wrappers.dfy` (`Wrappers`): `Option`.
- `js_values.dfy` (`JsValues`): JavaScript argument values and the tests the guards use.
- `errors.dfy` (`Errors`): error-message keys, logger locations, the four shapes a thrown error takes, and the rewrap text.
- `chain.dfy` (`Chain`): the external collaborators, namely the signer, the contract object, the external calls and their outcomes, and the gas ceiling 6000000.
- `checks.dfy` (`Checks`): each operation's guard list, the first-failure rule, and each list's ordered verdict.
- `lifecycle.dfy` (`Lifecycle`): the binding as a value. It holds the one-shot `deploy` and `loadContract` transitions, the guarded external call, and lemmas over any sequence of binding attempts.
- `user_mintable.dfy` (`UserMintable`): the class `ERC721UserMintable`. Its fields are `contractAddress`, `contractDeployed` and `signer`. A ghost log `calls` records every entry into an external step. Each method is proved against the functions above. The class invariant `Valid()` says both fields are set or neither, and every method preserves it.

External outcomes are method parameters. These are: the deployed address or the thrown error, what `parseEther` does with `cost`, and what each contract call returns or throws, as the network error handler classifies it. `ethers.utils.isAddress` is the parameter `isAddress: string -> bool`; every non-string fails the address checks.

## Model

| member | source | states |
|---|---|---|
| Checks.FirstFailure | src/lib/ContractTemplates/ERC721UserMintable.js:37-98 | the checks run in declared order: nothing is reported iff every check passes, and what is reported belongs to a check that fails while all before it pass |
| Checks.FirstFailureAt | src/lib/ContractTemplates/ERC721UserMintable.js:37-98 | the failure reported is exactly the first failing check's, whatever follows it |
| JsValues.IsBoolean | src/lib/ContractTemplates/ERC721UserMintable.js:504 | `isBoolean` accepts exactly `true` and `false`, and on those truthiness is the value itself |
| JsValues.IsDefined | src/lib/ContractTemplates/ERC721UserMintable.js:266 | `isDefined` rejects only `undefined`: `null`, `0` and `""` count as defined, and every truthy value does |
| Checks.AddressAccepted | src/lib/ContractTemplates/ERC721UserMintable.js:369 | `!x \|\| !isAddress(x)` rejects exactly the values that are not a non-empty string the address test accepts |
| Checks.QuantityAccepted | src/lib/ContractTemplates/ERC721UserMintable.js:170 | the quantity test accepts exactly the integers 1..20 (0, 21, fractions, NaN and non-numbers fail) |
| Checks.FeeAccepted | src/lib/ContractTemplates/ERC721UserMintable.js:378 | the fee test accepts exactly the integers 1..9999 (0 and 10000 fail) |
| Checks.Before | src/lib/ContractTemplates/ERC721UserMintable.js:436-461 | a check placed first decides the verdict when it fails, and otherwise defers to the rest |
| Checks.Guarded | src/lib/ContractTemplates/ERC721UserMintable.js:160-167 | on an unbound handle the not-deployed failure is reported before any argument check; on a bound one the argument checks decide |
| Checks.DeployChecks | src/lib/ContractTemplates/ERC721UserMintable.js:37-98 | deploy reports, in order: already bound, no signer, falsy name, undefined symbol, undefined baseURI (as `no_contractURI_supplied`), undefined maxSupply, undefined price; otherwise nothing |
| Checks.LoadChecks | src/lib/ContractTemplates/ERC721UserMintable.js:127-143 | loadContract reports `contract_already_loaded` when bound, else `invalid_contract_address` for an empty or non-address argument |
| Checks.MintChecks | src/lib/ContractTemplates/ERC721UserMintable.js:160-174 | mint reports not-deployed-or-loaded first, then rejects every quantity outside the integers 1..20 with its fixed message |
| Checks.ReserveChecks | src/lib/ContractTemplates/ERC721UserMintable.js:209-217 | reserve: same quantity rule as mint, with its own literal messages |
| Checks.RevealChecks | src/lib/ContractTemplates/ERC721UserMintable.js:233-239 | reveal: unbound first, then a falsy baseURI |
| Checks.RoyaltyInfoChecks | src/lib/ContractTemplates/ERC721UserMintable.js:257-282 | royaltyInfo: unbound, then an undefined tokenId (0 passes), then a falsy sellPrice (0 fails) |
| Checks.SetBaseURIChecks | src/lib/ContractTemplates/ERC721UserMintable.js:299-315 | setBaseURI reports under the setContractURI location: unbound, then a falsy baseURI as `invalid_contractURI` |
| Checks.SetPriceChecks | src/lib/ContractTemplates/ERC721UserMintable.js:331-342 | setPrice: unbound, then an undefined price with its literal message |
| Checks.SetRoyaltiesChecks | src/lib/ContractTemplates/ERC721UserMintable.js:360-385 | setRoyalties: unbound, then an invalid address, then a fee outside 1..9999 as `fee_must_be_between_0_and_10000` |
| Checks.ToggleSaleChecks | src/lib/ContractTemplates/ERC721UserMintable.js:402-409 | toggleSale fails only when unbound |
| Checks.TransferChecks | src/lib/ContractTemplates/ERC721UserMintable.js:427-461 | transfer: unbound, then `from`, then `to`, then a non-integer tokenId (0 passes) |
| Checks.SetApprovalForAllChecks | src/lib/ContractTemplates/ERC721UserMintable.js:486-511 | setApprovalForAll: unbound, then `to` as `no_to_address`, then a non-boolean approvalStatus |
| Checks.ApproveTransferChecks | src/lib/ContractTemplates/ERC721UserMintable.js:530-555 | approveTransfer: unbound, then `to`, then a non-integer tokenId |
| Checks.RenounceOwnershipChecks | src/lib/ContractTemplates/ERC721UserMintable.js:570-577 | renounceOwnership fails only when unbound |
| Checks.WithdrawChecks | src/lib/ContractTemplates/ERC721UserMintable.js:594-601 | withdraw fails only when unbound |
| Errors.WrappedText | src/lib/ContractTemplates/ERC721UserMintable.js:115-118 | the rewrap text starts with `[` and the handler's type, carries `[ERC721UserMintable.<op>` and `] An error occured: `, and ends with the handler's message |
| Chain.Rewrap | src/lib/ContractTemplates/ERC721UserMintable.js:183-186 | the shared catch block: a returned value passes through unchanged, and a thrown error becomes a failure rewrapped under the operation with the handler's type and message |
| Lifecycle.IsBound | src/lib/ContractTemplates/ERC721UserMintable.js:37 | `this.contractAddress \|\| this.#contractDeployed` with an unset field read as `undefined`: an unset or empty address alone does not bind, a set contract object always does, and on a consistent binding the guard holds iff the contract object is set |
| Lifecycle.DeployStep | src/lib/ContractTemplates/ERC721UserMintable.js:36-119 | a bound handle is refused with no call and no change; the factory is reached iff every check passes; otherwise the first failing check of `DeployChecks` is the one reported; success sets both fields to the deployed address; any failure leaves both unchanged; a thrown error is rewrapped under `deploy`; the two fields stay consistent |
| Lifecycle.LoadStep | src/lib/ContractTemplates/ERC721UserMintable.js:126-157 | a bound handle is refused with no call and no change; a bad address is refused before any call; success records the argument itself as the address; failure changes nothing; the fields stay consistent |
| Lifecycle.GuardedCall | src/lib/ContractTemplates/ERC721UserMintable.js:359-395 | no external call unless every check passes; a failing check is reported as the first failure; success iff all pass and the call returns, passing its value through; a thrown error is rewrapped under the operation |
| Lifecycle.BoundHandleIsInert | src/lib/ContractTemplates/ERC721UserMintable.js:37-44 | once bound, every further deploy or load attempt fails and the binding never changes |
| Lifecycle.SuccessBinds | src/lib/ContractTemplates/ERC721UserMintable.js:146-152 | a successful deploy or load leaves the handle bound |
| Lifecycle.AtMostOneBind | src/lib/ContractTemplates/ERC721UserMintable.js:127-134 | in the reports of any sequence of binding attempts, every attempt after a success fails, so at most one succeeds |
| Lifecycle.ReplayKeepsConsistent | src/lib/ContractTemplates/ERC721UserMintable.js:112-114 | no sequence of binding attempts leaves one of the two fields set without the other |
| UserMintable.ERC721UserMintable.constructor | src/lib/ContractTemplates/ERC721UserMintable.js:18-20 | a new handle keeps the given signer, has neither field set and has made no call |
| UserMintable.ERC721UserMintable.Deploy | src/lib/ContractTemplates/ERC721UserMintable.js:36-119 | the imperative guard chain and field writes behave as DeployStep, and the invariant is kept |
| UserMintable.ERC721UserMintable.LoadContract | src/lib/ContractTemplates/ERC721UserMintable.js:126-157 | behaves as LoadStep, and the invariant is kept |
| UserMintable.ERC721UserMintable.Mint | src/lib/ContractTemplates/ERC721UserMintable.js:159-187 | the first failing guard is thrown with no call; then an unparsable cost escapes unwrapped with no call; otherwise one mint call with the parsed value and gas limit 6000000 |
| UserMintable.ERC721UserMintable.Price | src/lib/ContractTemplates/ERC721UserMintable.js:193-201 | no bound guard: an unbound handle fails only through the rewrap path and makes no call; a bound one makes one call |
| UserMintable.ERC721UserMintable.Call | src/lib/ContractTemplates/ERC721UserMintable.js:219-224 | the shared method shape: it reports the first failing check with no logged call, otherwise logs exactly one call and returns the rewrapped outcome, as GuardedCall says |
| UserMintable.ERC721UserMintable.Reserve | src/lib/ContractTemplates/ERC721UserMintable.js:208-225 | the guarded call over ReserveChecks |
| UserMintable.ERC721UserMintable.Reveal | src/lib/ContractTemplates/ERC721UserMintable.js:232-247 | the guarded call over RevealChecks |
| UserMintable.ERC721UserMintable.RoyaltyInfo | src/lib/ContractTemplates/ERC721UserMintable.js:256-290 | the guarded call over RoyaltyInfoChecks |
| UserMintable.ERC721UserMintable.SetBaseURI | src/lib/ContractTemplates/ERC721UserMintable.js:298-323 | the guarded call over SetBaseURIChecks |
| UserMintable.ERC721UserMintable.SetPrice | src/lib/ContractTemplates/ERC721UserMintable.js:330-351 | the guarded call over SetPriceChecks |
| UserMintable.ERC721UserMintable.SetRoyalties | src/lib/ContractTemplates/ERC721UserMintable.js:359-395 | the guarded call over SetRoyaltiesChecks, calling setRoyalties with gas limit 6000000 |
| UserMintable.ERC721UserMintable.ToggleSale | src/lib/ContractTemplates/ERC721UserMintable.js:401-417 | the guarded call over ToggleSaleChecks |
| UserMintable.ERC721UserMintable.Transfer | src/lib/ContractTemplates/ERC721UserMintable.js:426-476 | the guarded call over TransferChecks, calling safeTransferFrom with gas limit 6000000 |
| UserMintable.ERC721UserMintable.SetApprovalForAll | src/lib/ContractTemplates/ERC721UserMintable.js:485-521 | the guarded call over SetApprovalForAllChecks |
| UserMintable.ERC721UserMintable.ApproveTransfer | src/lib/ContractTemplates/ERC721UserMintable.js:529-563 | the guarded call over ApproveTransferChecks |
| UserMintable.ERC721UserMintable.RenounceOwnership | src/lib/ContractTemplates/ERC721UserMintable.js:569-587 | the guarded call over RenounceOwnershipChecks |
| UserMintable.ERC721UserMintable.Withdraw | src/lib/ContractTemplates/ERC721UserMintable.js:593-609 | the guarded call over WithdrawChecks |
| UserMintable.BindTwice | src/lib/ContractTemplates/ERC721UserMintable.js:126-134 | on a real handle, after a successful first bind a second deploy or load is refused with its already-bound reason and the first address stays |

## Left out

- The library calls are not modelled: `ethers.ContractFactory`, `factory.deploy`, `contract.deployed`, `new ethers.Contract`, `parseEther` and `formatEther`. Their outcomes are parameters. No wei conversion is computed.
- `ethers.utils.isAddress` is an arbitrary predicate on strings, passed as a parameter. Its checksum and format rules are not modelled.
- `../error/handler.js` is not part of this model. The classification done by `networkErrorHandler` is an input (`Classified`). The text `errorLogger` produces is opaque (`Logged(location, reason)`). Only the literal rewrap text built in the class is spelled out.
- `../utils.js` is not part of this model. The model takes `isDefined(v)` as `v !== undefined` and `isBoolean(v)` as `typeof v === 'boolean'`.
- `getTemplate` returns a constant from `../NFT/constants.js`, which is not part of this model.
- async/await is not modelled. Each method runs to completion, so races between concurrent binding calls on one handle are not modelled.
- `contractAddress` is a public field in the class, and outside code could overwrite it. The model gives no such mutator.
- JavaScript values are abstracted. Numbers are either integers (unbounded, as `Number.isInteger` sees them) or non-integers. Floating-point precision is not modelled.
- BigInt and Symbol arguments have no constructor of their own. A Symbol behaves as `Obj` (truthy, not an integer). A BigInt has no faithful form. Read as `Int`, its truthiness is right (`0n` is falsy), but it passes `IsInteger`, whereas `Number.isInteger(5n)` is false. So the model accepts a BigInt `quantity`, `fee` or `tokenId` that lines 170, 213, 378, 454 and 548 reject. Read as `Obj`, it is always truthy, so the model accepts `sellPrice = 0n`, which line 275 rejects.
- In `mint`, the error from `parseEther(cost)` is thrown outside the try block. So unlike the class's other external failures, it escapes unwrapped (`Uncaught`).
- A missing argument object is not modelled. Every operation except `price`, `toggleSale`, `renounceOwnership` and `withdraw` destructures an argument object in its parameter list. Called with no object or with `null`, it throws a raw TypeError during destructuring. That error comes before any guard, even `contract_already_deployed` on a bound handle, and it is never rewrapped. The model always receives the destructured fields.
