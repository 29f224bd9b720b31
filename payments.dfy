/**
 * The value types the client consumes. They are declared in files that are not
 * part of this model; only the fields the client reads are kept.
 */
module Payments {

  import build = StellarBuild

  /** An asset: its code and issuing address. Whether it is the native asset is
      decided by `Asset.IsNative`, which the client receives as a parameter. */
  datatype Asset = Asset(code: string, issuer: string)

  /** The memo kind of a payment. The client distinguishes only the text and
      the id kinds; every other kind is one `OtherMemoType`. */
  datatype MemoType = MemoText | MemoID | OtherMemoType(tag: int)

  /** A payment request, consumed once by `Pay`. An empty `signerSeeds` means
      that `sourceSeed` signs. */
  datatype Payment = Payment(
    sourceSeed: string,
    targetAddress: string,
    amount: string,
    asset: Asset,
    memoType: MemoType,
    memoText: string,
    memoID: build.Uint64,
    signerSeeds: seq<string>)
}
