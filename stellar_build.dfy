/**
 * The operation and mutator values of the `stellar/go/build` library, as the
 * client hands them over. The library's encoding and validation are not part
 * of this model: each constructor only records the arguments it was given.
 */
module StellarBuild {

  import opened Wrappers

  /** Go's `uint32`, the type of weights and thresholds. */
  newtype Uint32 = x: int | 0 <= x < 0x1_0000_0000

  /** Go's `uint64`, the type of an id memo. */
  newtype Uint64 = x: int | 0 <= x < 0x1_0000_0000_0000_0000

  /** The arguments of `build.CreateAccount` and `build.Payment`. */
  datatype PaymentMut =
    | Destination(addressOrSeed: string)
    | NativeAmount(amount: string)
    | CreditAmount(code: string, issuer: string, amount: string)

  /** Transaction mutators: the memos and the operations. */
  datatype TxMut =
    | MemoText(text: string)
    | MemoID(id: Uint64)
    | CreateAccount(accountMuts: seq<PaymentMut>)
    | Payment(paymentMuts: seq<PaymentMut>)
      /** `build.Trust(code, issuer)`, or with `build.Limit(l)` as a third argument when `limit` is `Some(l)`. */
    | Trust(code: string, issuer: string, limit: Option<string>)
    | RemoveTrust(code: string, issuer: string)
    | MasterWeight(weight: Uint32)
    | AddSigner(address: string, weight: Uint32)
    | RemoveSigner(address: string)
    | SetThresholds(low: Uint32, medium: Uint32, high: Uint32)
  {
    predicate IsMemo() {
      MemoText? || MemoID?
    }
  }
}
