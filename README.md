# ERC-4337 signer: a Dafny model

This project models `ERC4337EthersSigner`, the ethers signer of the SDK. It sends every transaction as an
ERC-4337 UserOperation. `sendTransaction` works in these steps:

1. It rewrites the caller's fee fields to zero, in place, so that gas estimation succeeds against an account with no balance.
2. It populates the request and checks that it has a call target and either call data or a value.
3. It asks the smart-account API for a signed UserOperation, and the provider for the response built from it.
4. It calls the `transactionStarted` hook.
5. It submits the operation to the bundler once.
6. If the bundler rejects it, it rethrows the failure through `unwrapError`.

`unwrapError` parses the bundler's JSON error body. It looks for `FailedOp(...)` with the greedy pattern
`/FailedOp\((.*)\)/`, splits the capture on commas, and reports field 3 as the reason and field 2 as the
paymaster. The new error keeps the original stack.

Files and modules:

- `wrappers.dfy` (`Wrappers`): `Option`, `Result`, `Outcome`.
- `js_semantics.dfy` (`JsSemantics`): JavaScript values, truthiness, `== null`, `includes`, and `split` with its round trips.
- `failed_op_pattern.dfy` (`FailedOpPattern`): the regular expression.
  - A reference definition of JavaScript's leftmost match with a greedy `.*`, where `.` stops at line terminators.
  - The search function, proved to return exactly that match.
- `error_normalizer.dfy` (`ErrorNormalizer`): `unwrapError` and the messages it produces.
- `requests.dfy` (`Requests`): the request fields, the caller's mutable request object, the fee rewrite and `verifyAllNecessaryFields`.
- `ethers_signer.dfy` (`EthersSigner`): the signer class and its collaborators.
  - `Send`, the specification of `sendTransaction`.
  - The `SendTransaction` method, proved against `Send`.
  - `DelegateCopy`, `GetAddress`, `Connect` and `SignTransaction`.
- `send_properties.dfy` (`SendProperties`): what `sendTransaction` makes observable, in which order, and how it settles.

Collaborators the signer calls but that are not shown are parameters of the model:

- ethers' `populateTransaction`
- `createSignedUserOp`
- `constructUserOpTransactionResponse`
- the bundler's answer to `sendUserOpToBundler`
- `getSenderAccountAddress`
- the `transactionStarted` callback
- `JSON.parse` of the error body

Each is a deterministic function. The hook call and the bundler submission are recorded, in order, on a
`World` event log. The log is passed to `SendTransaction` as a parameter, standing for the outside world.

## Edge cases the code produces

- A malformed JSON error body makes `JSON.parse` throw at line 81. `unwrapError` has no fallback, so `sendTransaction` rejects with that SyntaxError (`ParseThrew` in the model).
- An exception thrown by the `transactionStarted` hook at line 61 is not caught. The call rejects with it, and nothing is submitted to the bundler.
- The hook is called before the UserOperation is submitted (lines 61-70). It therefore fires even when the bundler then rejects the operation.
- `verifyAllNecessaryFields` runs at line 48, after `populateTransaction` at line 47. Gas estimation happens inside `populateTransaction`, so an invalid request is rejected only once its populated form is checked.
- When the `FailedOp(...)` capture has fewer than three comma-separated fields, lines 89-90 read past the end of the split. The message then says `undefined` for the reason and, when there is one field, for the paymaster too.
- The format string at line 93 ends in a literal `)` after the paymaster text. A `FailedOp` message therefore ends in `0x…))`, and a message without a `FailedOp` match ends in `" )"`.
- The greedy `.*` captures up to the last `)` on the line, so a `)` that follows the `FailedOp(...)` on the same line becomes part of the capture.

## Model

| member | source | states |
|---|---|---|
| `JsSemantics.TemplateText` | packages/sdk/src/ERC4337EthersSigner.ts:89-93 | a string renders as itself in a template literal, and `undefined` renders as `"undefined"` |
| `JsSemantics.OrElse` | packages/sdk/src/ERC4337EthersSigner.ts:65 | `x \|\| d` is `x` exactly when `x` is truthy, otherwise `d` |
| `JsSemantics.IncludesFrom` | packages/sdk/src/ERC4337EthersSigner.ts:84 | true iff the pattern occurs at some index at or after `from` |
| `JsSemantics.Includes` | packages/sdk/src/ERC4337EthersSigner.ts:84 | `includes('FailedOp')` is true iff the text occurs somewhere in the message |
| `JsSemantics.Split` | packages/sdk/src/ERC4337EthersSigner.ts:88 | `split(',')` yields at least one piece, and no piece contains a comma |
| `JsSemantics.JoinSplit` | packages/sdk/src/ERC4337EthersSigner.ts:88 | joining the pieces of `split(',')` with commas gives back the capture |
| `JsSemantics.SplitJoin` | packages/sdk/src/ERC4337EthersSigner.ts:88 | splitting a comma-join of comma-free fields gives back exactly those fields |
| `JsSemantics.PieceText` | packages/sdk/src/ERC4337EthersSigner.ts:89-90 | `split[k]` in a template literal is the piece, or `"undefined"` past the last piece |
| `FailedOpPattern.LastClose` | packages/sdk/src/ERC4337EthersSigner.ts:86 | returns a `)` reachable without crossing a line terminator, and no such `)` lies further right (greedy `.*\)`) |
| `FailedOpPattern.FindMatch` | packages/sdk/src/ERC4337EthersSigner.ts:86 | no match from `from` iff it returns none; otherwise it returns the leftmost, greedy match from `from` |
| `FailedOpPattern.MatchFailedOp` | packages/sdk/src/ERC4337EthersSigner.ts:86-87 | `match(...)` is null iff no `FailedOp(`…`)` lies on one line; otherwise the capture is that of JavaScript's leftmost-greedy match |
| `FailedOpPattern.RegexMatchUnique` | packages/sdk/src/ERC4337EthersSigner.ts:86 | the leftmost-greedy match is unique, so the capture is well defined |
| `FailedOpPattern.MatchFailedOpCapture` | packages/sdk/src/ERC4337EthersSigner.ts:86-88 | whenever the pattern matches at `(i, j)`, `matched[1]` is `s[i+9..j]` |
| `FailedOpPattern.MatchImpliesIncludes` | packages/sdk/src/ERC4337EthersSigner.ts:84-87 | whenever the pattern matches, the `includes('FailedOp')` guard holds, so the guard never hides a match |
| `FailedOpPattern.CaptureAfterPrefix` | packages/sdk/src/ERC4337EthersSigner.ts:86-88 | for text without `(`, then `FailedOp(x)`, then text without `)`, with `x` on one line, the capture is exactly `x` |
| `ErrorNormalizer.NewError` | packages/sdk/src/ERC4337EthersSigner.ts:93 | a new `Error` has the given message and no body |
| `ErrorNormalizer.MessageTemplate` | packages/sdk/src/ERC4337EthersSigner.ts:83-93 | `${failedOpMessage}` renders a string message as itself, an absent one as `"undefined"`, and `null` as `"null"` |
| `ErrorNormalizer.ReasonAndPaymaster` | packages/sdk/src/ERC4337EthersSigner.ts:82-92 | with a match, the reason is field 3 of the capture and the paymaster text `(paymaster address: <field 2>)`; otherwise the message itself and no paymaster text |
| `ErrorNormalizer.BatchFailureMessage` | packages/sdk/src/ERC4337EthersSigner.ts:93 | the message is the fixed prefix, then the reason, a space and the paymaster text, each readable back at its position, then a final `)` |
| `ErrorNormalizer.UnwrapError` | packages/sdk/src/ERC4337EthersSigner.ts:79-98 | returns the input error itself iff it has no body; throws iff the body does not parse; otherwise a new error with the input's stack, no body, the batch-failure prefix and a final `)` |
| `ErrorNormalizer.FailedOpMessageText` | packages/sdk/src/ERC4337EthersSigner.ts:89-93 | the `FailedOp` message spelled out: `…: <reason> (paymaster address: <pm>))` |
| `ErrorNormalizer.PlainMessageText` | packages/sdk/src/ERC4337EthersSigner.ts:82-93 | the message without paymaster text spelled out: `…: <reason> )` |
| `ErrorNormalizer.UnwrapFailedOpFields` | packages/sdk/src/ERC4337EthersSigner.ts:84-95 | for a message containing `FailedOp(<fields>)`, with no `(` before it and no `)` after it, the report names field 3 as the reason and field 2 as the paymaster, `undefined` where a field is missing; the stack is kept |
| `ErrorNormalizer.UnwrapFailedOpReport` | packages/sdk/src/ERC4337EthersSigner.ts:84-95 | for a message containing `FailedOp(a,b,c…)` under the same conditions, the result is exactly `prefix + c + " (paymaster address: " + b + "))"` with the input's stack |
| `ErrorNormalizer.UnwrapFailedOpOneField` | packages/sdk/src/ERC4337EthersSigner.ts:88-93 | a message containing a one-field `FailedOp(x)` reports `undefined (paymaster address: undefined))` |
| `ErrorNormalizer.UnwrapWithoutFailedOp` | packages/sdk/src/ERC4337EthersSigner.ts:82-95 | without a match, the original message (or `undefined`/`null`) is the reason verbatim, no paymaster is named, and the message ends in `" )"` |
| `Requests.TransactionRequest.constructor` | packages/sdk/src/ERC4337EthersSigner.ts:35 | the caller's request object holds the given field values |
| `Requests.RewriteFees` | packages/sdk/src/ERC4337EthersSigner.ts:40-45 | if either EIP-1559 fee is truthy, both become 0 and the gas price is kept; otherwise the gas price becomes 0 and the EIP-1559 fields are kept; no other field changes |
| `Requests.RewriteLeavesNoFee` | packages/sdk/src/ERC4337EthersSigner.ts:36-45 | after the rewrite no EIP-1559 fee is truthy, and a truthy gas price survives only beside truthy EIP-1559 fees |
| `Requests.ZeroFeeBranches` | packages/sdk/src/ERC4337EthersSigner.ts:40-45 | an explicit `maxFeePerGas = 0` takes the gas-price branch; a BigNumber (an object) takes the EIP-1559 branch |
| `Requests.VerifyAllNecessaryFields` | packages/sdk/src/ERC4337EthersSigner.ts:100-108 | "Missing call target" iff `to == null`; "Missing call data or value" iff `to` is present and both data and value are `== null`; passes iff neither |
| `Requests.ZeroValuePasses` | packages/sdk/src/ERC4337EthersSigner.ts:104-107 | a target with `value = 0` and no data passes |
| `Requests.DetailsOf` | packages/sdk/src/ERC4337EthersSigner.ts:50-57 | the account API receives the request's target and data, or `""` for a missing one (`?? ''`), and its value, gas limit and EIP-1559 fees |
| `EthersSigner.Rethrow` | packages/sdk/src/ERC4337EthersSigner.ts:73 | what `unwrapError` returns is thrown, or the SyntaxError it raised propagates |
| `EthersSigner.StartedHook` | packages/sdk/src/ERC4337EthersSigner.ts:61 | a hook is called iff hooks are configured and define `transactionStarted`, and the hook called is that `transactionStarted` |
| `EthersSigner.StartedInfo` | packages/sdk/src/ERC4337EthersSigner.ts:61-67 | the hook receives the response's hash, the request's from and to, the value when it is truthy and `0` when it is not (`tx.value \|\| 0`), and `sponsored` iff `paymasterAndData != "0x"` |
| `EthersSigner.Send` | packages/sdk/src/ERC4337EthersSigner.ts:47-76 | a failing preparation step rejects with its error and causes no event; a resolved call returns the response built for the prepared operation, which the bundler accepted and whose submission is the last event |
| `EthersSigner.Prepare` | packages/sdk/src/ERC4337EthersSigner.ts:40-58 | the steps before the hook succeed iff populating, validating, building the UserOp and building its response all succeed, each on the previous step's result; otherwise the result is the error of the first step that failed |
| `EthersSigner.ERC4337EthersProvider.GetSenderAccountAddress` | packages/sdk/src/ERC4337EthersSigner.ts:116 | each query counts once and returns the provider's answer to it |
| `EthersSigner.HttpRpcClient.SendUserOpToBundler` | packages/sdk/src/ERC4337EthersSigner.ts:70 | one submission is appended to the world's log; the result is the bundler's answer |
| `EthersSigner.ERC4337EthersSigner.constructor` | packages/sdk/src/ERC4337EthersSigner.ts:14-24 | the collaborators are kept as given and no address is cached |
| `EthersSigner.ERC4337EthersSigner.DelegateCopy` | packages/sdk/src/ERC4337EthersSigner.ts:26-32 | a fresh signer over a fresh account API with `delegateMode = true`, the same properties and behaviour; config, original signer, provider and RPC client passed through; the original account API unchanged |
| `EthersSigner.ERC4337EthersSigner.SendTransaction` | packages/sdk/src/ERC4337EthersSigner.ts:35-77 | the caller's request ends up rewritten by `RewriteFees`; the result and the events appended to the world are those of `Send` |
| `EthersSigner.ERC4337EthersSigner.GetAddress` | packages/sdk/src/ERC4337EthersSigner.ts:114-119 | with an address cached, returns it without a query; otherwise queries the provider once, returns its answer and caches it when the query succeeds |
| `EthersSigner.ERC4337EthersSigner.Connect` | packages/sdk/src/ERC4337EthersSigner.ts:110-112 | always throws "changing providers is not supported" |
| `EthersSigner.ERC4337EthersSigner.SignTransaction` | packages/sdk/src/ERC4337EthersSigner.ts:125-127 | always rejects with "not implemented" |
| `EthersSigner.GetAddressTwice` | packages/sdk/src/ERC4337EthersSigner.ts:114-119 | when the first call succeeds, the second returns the same address and the pair queries the provider at most once; after a failed first query the second call queries again (two queries in all) and returns the answer to that second query |
| `SendProperties.InvalidRequestHasNoEffect` | packages/sdk/src/ERC4337EthersSigner.ts:47-48 | a populated request failing validation causes no hook call and no submission, and rejects with the validation error |
| `SendProperties.MissingTargetReportedFirst` | packages/sdk/src/ERC4337EthersSigner.ts:101-103 | a missing target rejects with "Missing call target" whatever the data and value |
| `SendProperties.SubmittedAtMostOnce` | packages/sdk/src/ERC4337EthersSigner.ts:61-74 | at most one submission and at most two events; every event before the last is a hook call |
| `SendProperties.SubmitsBuiltOperationOnce` | packages/sdk/src/ERC4337EthersSigner.ts:50-70 | a submission happens iff the preparing steps succeed and the hook does not throw; the operation submitted once, as the last event, is the one built |
| `SendProperties.HookPrecedesSubmission` | packages/sdk/src/ERC4337EthersSigner.ts:58-70 | a configured hook is called first, with the response's hash and `sponsored` iff paymaster data is attached; the submission follows unless the hook throws, in which case the call rejects with that error |
| `SendProperties.BundlerFailureIsUnwrapped` | packages/sdk/src/ERC4337EthersSigner.ts:69-74 | a bundler rejection `e` is rethrown as `unwrapError(e)` |
| `SendProperties.SuccessReturnsResponseOfSubmittedOperation` | packages/sdk/src/ERC4337EthersSigner.ts:58-76 | a resolved call returns the response built from the one UserOperation it submitted, which the bundler accepted |
| `SendProperties.EndToEndScenario` | packages/sdk/src/ERC4337EthersSigner.ts:35-77 | a request with target, data and zero value, no hooks and an accepting bundler: gas price zeroed, one submission, and the built response returned |

## Left out

- `signMessage` and `signUserOperation` (lines 121-132): they only hand the message, or the operation's hash, to the owner's signer. Hashing and signing are foreign code.
- ethers' `populateTransaction`: a function of the rewritten request that may throw. Its gas estimation and network calls are not modelled. It also runs ethers' `checkTransaction`, which calls this signer's own `getAddress()`. So a real `sendTransaction` can query the provider for the account address and cache it in `address`. `SendTransaction` changes only the request and the world log, so it does not capture that query or the cached address.
- `createSignedUserOp`: a function of the account's properties, its delegate mode and the transaction details that may throw. Paymaster negotiation and `GasChecksFailed` happen inside it, and the account code is not part of this model. It is assumed not to change the account object.
- `constructUserOpTransactionResponse`, receipt polling, `wait()` and the confirmed/reverted hooks: the provider code is not part of this model. The response is an opaque function of the UserOperation.
- Promises and async scheduling: the steps of `sendTransaction` and `getAddress` run in sequence. Two concurrent calls on one signer are not modelled.
- `JSON.parse` and the lookup of `error.message`: an abstract function whose result is a string, `undefined` or `null`. Other kinds of `error.message` are not cases of the model. A number, boolean or plain object has no `includes` method, so line 84 throws a TypeError. An array does have `includes`. It passes line 84 and is rendered by the template literal at line 93 with its elements joined by commas. If one element is exactly `'FailedOp'`, the guard holds and line 86 throws, because an array has no `match` method.
- The runtime-generated `stack` of newly created errors: `NewError` has none. Only the copied-over stack of `unwrapError` is modelled.
- `Object.assign` copies properties shallowly, so nested objects stay shared between the original account API and its delegate copy. The model keeps the properties as values and does not capture that sharing.
- `defineReadOnly(this, 'provider', ...)` and the read-only markers: not modelled.
- DetailsOf: the model's call data is a string, so byte-array call data is not a case of the model. Ethers allows any `BytesLike` there, and line 52 would pass a `Uint8Array`'s `toString()` text (decimal bytes joined by commas) to `createSignedUserOp`, not hex.
- `tx.from!` and `tx.to!`: these non-null assertions have no runtime effect, and the values are passed as they are.
- Numbers are integers. `NaN` and fractional values are not modelled, and are not needed by the fee fields the signer writes.
- Strings are sequences of Unicode scalar values, not UTF-16 code units. A lone surrogate cannot appear in a modelled message.
- `packages/sdk/src/index.ts`, `packages/sdk/src/paymaster.ts` and `packages/sdk/src/paymasters/VerifyingPaymasterAPI.ts` are not part of this model: they are configuration plumbing and thin network wrappers. Of `packages/sdk/src/ClientConfig.ts`, only the `Hooks` shape is used.
