# MicroStellar client: decision layer

This project models the `MicroStellar` client of the microstellar Go package
(`microstellar.go`), a thin facade over the Stellar network's transaction
builder. Each mutating facade call chooses the operations to send, creates one fresh
transaction object (`Tx`), drives it through Build, Sign and Submit, and
returns the transaction's error. What the model captures is that routing:

- `New` derives the simulated ("fake") mode from the network name.
- Signer resolution: a call given a non-empty list of signer seeds signs with
  exactly that list, in order, and uses the source seed only to name the
  source account; with no signers the source seed is the one signer.
- `Pay` chooses a native or credit amount by the asset, puts a text or id memo
  ahead of the payment, and always ends with the one payment operation.
- `CreateTrustLine` builds an unlimited trust operation for an empty limit and
  a limited one otherwise; the other calls build one operation from their
  arguments, unchanged.
- `LoadAccount` on the fake network returns `newAccount()` with no error,
  whatever the address, and makes no transaction.

Modules:

- `StellarBuild`: the operation and mutator values of `stellar/go/build`, kept
  as plain records of their arguments (`TxMut`, `PaymentMut`), and Go's
  `uint32`/`uint64` as newtypes.
- `Payments`: the `Asset`, `MemoType` and `Payment` values the client reads.
- `Transactions`: the `Tx` class. It records every call made to it in
  `calls`; `Err()` is `internals(networkName, calls)`, where `internals` is a
  function parameter standing for Tx's own code and the network, both
  outside this model. All results hold for every such function.
- `Client`: the `MicroStellar` handle, `New`, the specification `Pipeline` of
  the calls a mutating facade call makes, the facade methods, and the lemmas.

Each facade method is proved to return exactly
`internals(ms.networkName, Pipeline(sourceSeed, muts, signers))` for the
mutator list `muts` that the source builds. So it returns `tx.Err()` of a
fresh `Tx` on the client's network, after exactly those calls. The lemmas
`PipelineStages` and `SignerResolution` then give, for every call, that
Build, Sign and Submit each run once and in that order, and which seeds sign.

## Model

| member | source | states |
|---|---|---|
| `Client.New` | microstellar.go:32-37 | the handle keeps the network name unchanged, and fake mode is on exactly when the name is "fake" |
| `Client.PipelineStages` | microstellar.go:57-67 | a mutating call's transaction sees Build, Sign and Submit exactly once each, strictly in that order; Build gets `sourceAccount(sourceSeed)` and the call's mutators |
| `Client.SignerResolution` | microstellar.go:60-64 | with a non-empty signer list the only seeds signed with are that list, in order, and a source seed not in the list never signs; with an empty list the source seed alone signs |
| `Client.FundAccount` | microstellar.go:52-68 | returns the error of one fresh transaction on the client's network that was built with `CreateAccount(Destination(address), NativeAmount(amount))`, signed per signer resolution, and submitted |
| `Client.LoadAccount` | microstellar.go:71-84 | on the fake network the result is `newAccount()` with no error; otherwise it is the network's error or the converted network account, never both |
| `Client.FakeLoadIsConstant` | microstellar.go:72-74 | on the fake network the load is `Ok(newAccount())` and does not depend on the address, the network load or the conversion |
| `Client.PaymentMuts` | microstellar.go:95-104 | the payment is built from `Destination(target)` then one amount; the amount is native exactly when the asset is native, credit amounts carry the asset's code and issuer, and the amount string is passed unchanged |
| `Client.PayMuts` | microstellar.go:106-113 | a payment's mutator list is one or two long, ends with the payment operation, and everything before it is a memo |
| `Client.PayMemoOrder` | microstellar.go:106-113 | a text memo gives `[MemoText, Payment]`, an id memo `[MemoID, Payment]`, any other memo type `[Payment]`; the payment operation occurs exactly once |
| `Client.Pay` | microstellar.go:92-125 | returns the error of one fresh transaction built from the payment's source seed and mutator list, signed with the payment's signer seeds or else its source seed, and submitted |
| `Client.PayNative` | microstellar.go:87-89 | is `Pay` on the payment `NewPayment(sourceSeed, targetAddress, amount)` makes |
| `Client.PayNativeCalls` | microstellar.go:87-89 | when `NewPayment` keeps its arguments and makes a native, memo-less payment with no extra signers, the transaction is built with one native payment to the target and signed with the source seed alone |
| `Client.TrustLine` | microstellar.go:133-137 | the trust operation carries the asset's code and issuer; it has no limit exactly when the limit string is empty, and otherwise carries that limit |
| `Client.CreateTrustLine` | microstellar.go:130-147 | returns the error of one fresh transaction built with the trust operation for the asset and limit, signed per signer resolution, and submitted |
| `Client.RemoveTrustLine` | microstellar.go:151-163 | returns the error of one fresh transaction built with `RemoveTrust(code, issuer)` of the asset, signed per signer resolution, and submitted |
| `Client.SetMasterWeight` | microstellar.go:167-179 | returns the error of one fresh transaction built with `MasterWeight(weight)`, signed per signer resolution, and submitted |
| `Client.AddSigner` | microstellar.go:183-195 | returns the error of one fresh transaction built with `AddSigner(signerAddress, signerWeight)`, signed per signer resolution, and submitted |
| `Client.RemoveSigner` | microstellar.go:200-212 | returns the error of one fresh transaction built with `RemoveSigner(signerAddress)`, signed per signer resolution, and submitted |
| `Client.SetThresholds` | microstellar.go:216-228 | returns the error of one fresh transaction built with `SetThresholds(low, medium, high)`, arguments in that order, signed per signer resolution, and submitted |

## Left out

- `CreateKeyPair` (microstellar.go:40-47): random key generation is delegated to a cryptographic library.
- The inside of `Tx` (`Build`, `Sign`, `Submit`, `Err`, `GetClient`) is not part of this model. A `Tx` records its calls, and its error is an arbitrary function (`internals`) of the network name and those calls. No error short-circuiting or state checks are assumed.
- `sourceAccount`, `NewPayment`, `newAccount`, `newAccountFromHorizon`, `Asset.IsNative` and the Horizon account load are defined outside `microstellar.go`. They appear as the symbolic value `SourceAccount(seed)` or as function and value parameters.
- The memo-type constants are defined outside `microstellar.go`. The model has the two kinds the client's `switch` distinguishes, `MemoText` and `MemoID`, and one `OtherMemoType` for all the rest.
- `Asset` and `Payment` keep only the fields the client reads.
- The build library's encoding and validation, including amount and asset-code checks, are not modelled. The client enforces none of them.
- Amount and asset-code validation, skipping Submit after a failed Build, and fake-mode success of transactions are not in `microstellar.go`. They happen inside `Tx` or the build library, so here they are part of the uninterpreted `internals`.
- Cryptographic signing, HTTP submission to Horizon, and the `ErrorString` helper are not modelled.
- Go's nil pointers: an `*Asset` or `*Payment` argument is modelled as a value, so the nil-dereference panic is not modelled.
