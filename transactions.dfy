/**
 * The transaction object `Tx` the client drives. Its implementation is not
 * part of this model: a `Tx` records the calls made to it, and the error it
 * reports is whatever its `internals` make of those calls on its network.
 */
module Transactions {

  import opened Wrappers
  import build = StellarBuild

  /** The value `sourceAccount(seed)` yields. Its definition is not part of
      this model, so it stands for the seed or address it was given. */
  datatype SourceAccount = SourceAccount(addressOrSeed: string)

  /** One call made to a `Tx`. */
  datatype Call =
    | BuildCall(source: SourceAccount, muts: seq<build.TxMut>)
    | SignCall(seeds: seq<string>)
    | SubmitCall

  /** An error value as `Tx.Err()` returns it; its contents are opaque here. */
  datatype Error = Error(message: string)

  /** What `Tx.Err()` reports for a transaction on the named network after the
      given calls: the transaction code and the network, left uninterpreted. */
  type Internals = (string, seq<Call>) -> Option<Error>

  class Tx {
    const networkName: string
    const internals: Internals
    /** Every call made to this transaction so far, oldest first. */
    var calls: seq<Call>

    /** `NewTx(networkName)`. */
    constructor (networkName: string, internals: Internals)
      ensures this.networkName == networkName && this.internals == internals
      ensures calls == []
    {
      this.networkName := networkName;
      this.internals := internals;
      calls := [];
    }

    method Build(source: SourceAccount, muts: seq<build.TxMut>)
      modifies this
      ensures calls == old(calls) + [BuildCall(source, muts)]
    {
      calls := calls + [BuildCall(source, muts)];
    }

    method Sign(seeds: seq<string>)
      modifies this
      ensures calls == old(calls) + [SignCall(seeds)]
    {
      calls := calls + [SignCall(seeds)];
    }

    method Submit()
      modifies this
      ensures calls == old(calls) + [SubmitCall]
    {
      calls := calls + [SubmitCall];
    }

    function Err(): Option<Error>
      reads this
    {
      internals(networkName, calls)
    }
  }

  /** The pipeline stage of a call: build, then sign, then submit. */
  function Stage(c: Call): nat
  {
    match c
    case BuildCall(_, _) => 0
    case SignCall(_) => 1
    case SubmitCall => 2
  }

  /** How many of `calls` are at `stage`. */
  function CountStage(calls: seq<Call>, stage: nat): nat
  {
    if calls == [] then 0
    else (if Stage(calls[0]) == stage then 1 else 0) + CountStage(calls[1..], stage)
  }

  /** Every seed passed to `Sign`, in the order passed. */
  function SignedWith(calls: seq<Call>): seq<string>
  {
    if calls == [] then []
    else (if calls[0].SignCall? then calls[0].seeds else []) + SignedWith(calls[1..])
  }

  /** The mutator lists passed to `Build`, in the order passed. */
  function Built(calls: seq<Call>): seq<seq<build.TxMut>>
  {
    if calls == [] then []
    else (if calls[0].BuildCall? then [calls[0].muts] else []) + Built(calls[1..])
  }

  lemma {:induction false} CountStageAppend(a: seq<Call>, b: seq<Call>, stage: nat)
    ensures CountStage(a + b, stage) == CountStage(a, stage) + CountStage(b, stage)
  {
    if a == [] {
      assert a + b == b;
    } else {
      assert (a + b)[1..] == a[1..] + b;
      CountStageAppend(a[1..], b, stage);
    }
  }

  lemma {:induction false} SignedWithAppend(a: seq<Call>, b: seq<Call>)
    ensures SignedWith(a + b) == SignedWith(a) + SignedWith(b)
  {
    if a == [] {
      assert a + b == b;
    } else {
      assert (a + b)[1..] == a[1..] + b;
      SignedWithAppend(a[1..], b);
    }
  }

  lemma {:induction false} BuiltAppend(a: seq<Call>, b: seq<Call>)
    ensures Built(a + b) == Built(a) + Built(b)
  {
    if a == [] {
      assert a + b == b;
    } else {
      assert (a + b)[1..] == a[1..] + b;
      BuiltAppend(a[1..], b);
    }
  }
}
