/**
 * The `MicroStellar` client: a handle on one network, and one call per ledger
 * capability. Every mutating call assembles its mutators, drives one fresh
 * `Tx` through Build, Sign and Submit, and returns `tx.Err()`.
 *
 * Signer resolution: when a call is given a non-empty list of signer seeds,
 * the transaction is signed with exactly those seeds, in order, and the
 * source seed only names the source account (it may be an address);
 * otherwise the source seed is the one signer.
 */
module Client {

  import opened Wrappers
  import opened Payments
  import opened Transactions
  import build = StellarBuild

  /** The client handle: the network it talks to, and whether that network is
      the simulated "fake" one. Neither changes after `New`. */
  datatype MicroStellar = MicroStellar(networkName: string, fake: bool)

  function New(networkName: string): (ms: MicroStellar)
    ensures ms.networkName == networkName
    ensures ms.fake <==> networkName == "fake"
  {
    MicroStellar(networkName, networkName == "fake")
  }

  /** The calls a mutating client call makes to its fresh `Tx`. */
  function Pipeline(sourceSeed: string, muts: seq<build.TxMut>, signers: seq<string>): seq<Call>
  {
    [BuildCall(SourceAccount(sourceSeed), muts),
     SignCall(if |signers| > 0 then signers else [sourceSeed]),
     SubmitCall]
  }

  /** Each stage runs exactly once, in the order Build, Sign, Submit, and the
      one Build gets the source account of `sourceSeed` and the given mutators. */
  lemma PipelineStages(sourceSeed: string, muts: seq<build.TxMut>, signers: seq<string>)
    ensures var calls := Pipeline(sourceSeed, muts, signers);
      && CountStage(calls, 0) == 1
      && CountStage(calls, 1) == 1
      && CountStage(calls, 2) == 1
      && (forall i, j :: 0 <= i < j < |calls| ==> Stage(calls[i]) < Stage(calls[j]))
      && calls[0] == BuildCall(SourceAccount(sourceSeed), muts)
      && Built(calls) == [muts]
  {
    var calls := Pipeline(sourceSeed, muts, signers);
    assert calls == [calls[0]] + [calls[1]] + [calls[2]];
    CountStageAppend([calls[0]] + [calls[1]], [calls[2]], 0);
    CountStageAppend([calls[0]], [calls[1]], 0);
    CountStageAppend([calls[0]] + [calls[1]], [calls[2]], 1);
    CountStageAppend([calls[0]], [calls[1]], 1);
    CountStageAppend([calls[0]] + [calls[1]], [calls[2]], 2);
    CountStageAppend([calls[0]], [calls[1]], 2);
    BuiltAppend([calls[0]] + [calls[1]], [calls[2]]);
    BuiltAppend([calls[0]], [calls[1]]);
  }

  /** The one `Sign` call gets exactly the explicit signers, in order, when
      there are any, and otherwise exactly the source seed. */
  lemma SignerResolution(sourceSeed: string, muts: seq<build.TxMut>, signers: seq<string>)
    ensures |signers| > 0 ==> SignedWith(Pipeline(sourceSeed, muts, signers)) == signers
    ensures |signers| > 0 && sourceSeed !in signers ==> sourceSeed !in SignedWith(Pipeline(sourceSeed, muts, signers))
    ensures |signers| == 0 ==> SignedWith(Pipeline(sourceSeed, muts, signers)) == [sourceSeed]
  {
    var calls := Pipeline(sourceSeed, muts, signers);
    assert calls == [calls[0]] + [calls[1]] + [calls[2]];
    SignedWithAppend([calls[0]] + [calls[1]], [calls[2]]);
    SignedWithAppend([calls[0]], [calls[1]]);
  }

  method FundAccount(ms: MicroStellar, internals: Internals, sourceSeed: string, address: string,
                     amount: string, signers: seq<string>) returns (err: Option<Error>)
    ensures err == internals(ms.networkName, Pipeline(sourceSeed,
      [build.CreateAccount([build.Destination(address), build.NativeAmount(amount)])], signers))
  {
    var payment := build.CreateAccount([build.Destination(address), build.NativeAmount(amount)]);

    var tx := new Tx(ms.networkName, internals);
    tx.Build(SourceAccount(sourceSeed), [payment]);

    if |signers| > 0 {
      tx.Sign(signers);
    } else {
      tx.Sign([sourceSeed]);
    }

    tx.Submit();
    assert tx.calls == Pipeline(sourceSeed, [payment], signers);
    err := tx.Err();
  }

  /** Loads an account. On the fake network the result is `newAccount` and no
      transaction is made; otherwise it is the network's account, converted by
      `fromHorizon`, or the network's error. */
  function LoadAccount<A, H>(ms: MicroStellar, address: string, newAccount: A,
                             horizonLoad: (string, string) -> Result<H, Error>,
                             fromHorizon: H -> A): (r: Result<A, Error>)
    ensures ms.fake ==> r == Ok(newAccount)
    ensures !ms.fake ==> (r.Failure? <==> horizonLoad(ms.networkName, address).Failure?)
    ensures !ms.fake && r.Failure? ==> r.error == horizonLoad(ms.networkName, address).error
    ensures !ms.fake && r.Ok? ==> r.value == fromHorizon(horizonLoad(ms.networkName, address).value)
  {
    if ms.fake then
      Ok(newAccount)
    else
      match horizonLoad(ms.networkName, address)
      case Failure(e) => Failure(e)
      case Ok(account) => Ok(fromHorizon(account))
  }

  /** On the fake network a load is `Ok(newAccount)`: it does not depend on the
      address, on the network load or on the conversion. */
  lemma FakeLoadIsConstant<A, H>(ms: MicroStellar, a1: string, a2: string, newAccount: A,
                                 load1: (string, string) -> Result<H, Error>, load2: (string, string) -> Result<H, Error>,
                                 from1: H -> A, from2: H -> A)
    requires ms.fake
    ensures LoadAccount(ms, a1, newAccount, load1, from1) == LoadAccount(ms, a2, newAccount, load2, from2)
    ensures LoadAccount(ms, a1, newAccount, load1, from1).Ok?
  {
  }

  /** The payment mutators: the destination, then the amount, native or credit. */
  function PaymentMuts(p: Payment, isNative: Asset -> bool): (muts: seq<build.PaymentMut>)
    ensures |muts| == 2 && muts[0] == build.Destination(p.targetAddress)
    ensures muts[1].NativeAmount? || muts[1].CreditAmount?
    ensures muts[1].NativeAmount? <==> isNative(p.asset)
    ensures muts[1].amount == p.amount
    ensures muts[1].CreditAmount? ==> muts[1].code == p.asset.code && muts[1].issuer == p.asset.issuer
  {
    [build.Destination(p.targetAddress),
     if isNative(p.asset) then build.NativeAmount(p.amount)
     else build.CreditAmount(p.asset.code, p.asset.issuer, p.amount)]
  }

  /** The memo mutator a payment asks for, if any. */
  function MemoMuts(p: Payment): seq<build.TxMut>
  {
    match p.memoType
    case MemoText => [build.MemoText(p.memoText)]
    case MemoID => [build.MemoID(p.memoID)]
    case OtherMemoType(_) => []
  }

  /** The transaction mutators of a payment: at most one memo, then the payment. */
  function PayMuts(p: Payment, isNative: Asset -> bool): (muts: seq<build.TxMut>)
    ensures 1 <= |muts| <= 2
    ensures muts[|muts| - 1] == build.Payment(PaymentMuts(p, isNative))
    ensures forall i :: 0 <= i < |muts| - 1 ==> muts[i].IsMemo()
  {
    MemoMuts(p) + [build.Payment(PaymentMuts(p, isNative))]
  }

  /** How many of `muts` are payment operations. */
  function CountPayments(muts: seq<build.TxMut>): nat
  {
    if muts == [] then 0
    else (if muts[0].Payment? then 1 else 0) + CountPayments(muts[1..])
  }

  lemma {:induction false} CountPaymentsAppend(a: seq<build.TxMut>, b: seq<build.TxMut>)
    ensures CountPayments(a + b) == CountPayments(a) + CountPayments(b)
  {
    if a == [] {
      assert a + b == b;
    } else {
      assert (a + b)[1..] == a[1..] + b;
      CountPaymentsAppend(a[1..], b);
    }
  }

  /** The memo, when the payment has a text or id memo, comes first; the
      payment operation comes last and exactly once. */
  lemma PayMemoOrder(p: Payment, isNative: Asset -> bool)
    ensures var pay := build.Payment(PaymentMuts(p, isNative));
      && (p.memoType == MemoText ==> PayMuts(p, isNative) == [build.MemoText(p.memoText), pay])
      && (p.memoType == MemoID ==> PayMuts(p, isNative) == [build.MemoID(p.memoID), pay])
      && (p.memoType.OtherMemoType? ==> PayMuts(p, isNative) == [pay])
      && CountPayments(PayMuts(p, isNative)) == 1
  {
    var pay := build.Payment(PaymentMuts(p, isNative));
    CountPaymentsAppend(MemoMuts(p), [pay]);
    assert CountPayments(MemoMuts(p)) == 0;
  }

  method Pay(ms: MicroStellar, internals: Internals, isNative: Asset -> bool, payment: Payment)
    returns (err: Option<Error>)
    ensures err == internals(ms.networkName,
      Pipeline(payment.sourceSeed, PayMuts(payment, isNative), payment.signerSeeds))
  {
    var txMuts: seq<build.TxMut> := [];

    var paymentMuts: seq<build.PaymentMut> := [build.Destination(payment.targetAddress)];

    if isNative(payment.asset) {
      paymentMuts := paymentMuts + [build.NativeAmount(payment.amount)];
    } else {
      paymentMuts := paymentMuts + [build.CreditAmount(payment.asset.code, payment.asset.issuer, payment.amount)];
    }
    assert paymentMuts == PaymentMuts(payment, isNative);

    match payment.memoType {
      case MemoText =>
        txMuts := txMuts + [build.MemoText(payment.memoText)];
      case MemoID =>
        txMuts := txMuts + [build.MemoID(payment.memoID)];
      case OtherMemoType(_) =>
    }
    assert txMuts == MemoMuts(payment);

    txMuts := txMuts + [build.Payment(paymentMuts)];
    assert txMuts == PayMuts(payment, isNative);
    var tx := new Tx(ms.networkName, internals);
    tx.Build(SourceAccount(payment.sourceSeed), txMuts);

    if |payment.signerSeeds| > 0 {
      tx.Sign(payment.signerSeeds);
    } else {
      tx.Sign([payment.sourceSeed]);
    }

    tx.Submit();
    assert tx.calls == Pipeline(payment.sourceSeed, txMuts, payment.signerSeeds);
    err := tx.Err();
  }

  /** `PayNative` is `Pay` on the payment `NewPayment` makes; `newPayment`
      stands for that constructor, whose definition is not part of this model. */
  method PayNative(ms: MicroStellar, internals: Internals, isNative: Asset -> bool,
                   newPayment: (string, string, string) -> Payment,
                   sourceSeed: string, targetAddress: string, amount: string) returns (err: Option<Error>)
    ensures var p := newPayment(sourceSeed, targetAddress, amount);
      err == internals(ms.networkName, Pipeline(p.sourceSeed, PayMuts(p, isNative), p.signerSeeds))
  {
    err := Pay(ms, internals, isNative, newPayment(sourceSeed, targetAddress, amount));
  }

  /** When `NewPayment` keeps its arguments and makes a native payment with no
      memo and no extra signers, `PayNative` builds one native payment
      operation to the target and signs with the source seed alone. */
  lemma PayNativeCalls(isNative: Asset -> bool, newPayment: (string, string, string) -> Payment,
                       sourceSeed: string, targetAddress: string, amount: string)
    requires var p := newPayment(sourceSeed, targetAddress, amount);
      && p.sourceSeed == sourceSeed && p.targetAddress == targetAddress && p.amount == amount
      && isNative(p.asset) && p.memoType.OtherMemoType? && p.signerSeeds == []
    ensures var p := newPayment(sourceSeed, targetAddress, amount);
      Pipeline(p.sourceSeed, PayMuts(p, isNative), p.signerSeeds)
      == [BuildCall(SourceAccount(sourceSeed),
                    [build.Payment([build.Destination(targetAddress), build.NativeAmount(amount)])]),
          SignCall([sourceSeed]),
          SubmitCall]
  {
    var p := newPayment(sourceSeed, targetAddress, amount);
    assert PaymentMuts(p, isNative) == [build.Destination(targetAddress), build.NativeAmount(amount)];
    assert PayMuts(p, isNative) == [build.Payment(PaymentMuts(p, isNative))];
  }

  /** The trust operation: unlimited for an empty limit, limited otherwise. */
  function TrustLine(asset: Asset, limit: string): (m: build.TxMut)
    ensures m.Trust? && m.code == asset.code && m.issuer == asset.issuer
    ensures m.limit.None? <==> limit == ""
    ensures m.limit.Some? ==> m.limit.value == limit
  {
    build.Trust(asset.code, asset.issuer, if limit == "" then None else Some(limit))
  }

  method CreateTrustLine(ms: MicroStellar, internals: Internals, sourceSeed: string, asset: Asset,
                         limit: string, signers: seq<string>) returns (err: Option<Error>)
    ensures err == internals(ms.networkName, Pipeline(sourceSeed, [TrustLine(asset, limit)], signers))
  {
    var tx := new Tx(ms.networkName, internals);

    if limit == "" {
      tx.Build(SourceAccount(sourceSeed), [build.Trust(asset.code, asset.issuer, None)]);
    } else {
      tx.Build(SourceAccount(sourceSeed), [build.Trust(asset.code, asset.issuer, Some(limit))]);
    }

    if |signers| > 0 {
      tx.Sign(signers);
    } else {
      tx.Sign([sourceSeed]);
    }

    tx.Submit();
    assert tx.calls == Pipeline(sourceSeed, [TrustLine(asset, limit)], signers);
    err := tx.Err();
  }

  method RemoveTrustLine(ms: MicroStellar, internals: Internals, sourceSeed: string, asset: Asset,
                         signers: seq<string>) returns (err: Option<Error>)
    ensures err == internals(ms.networkName,
      Pipeline(sourceSeed, [build.RemoveTrust(asset.code, asset.issuer)], signers))
  {
    var tx := new Tx(ms.networkName, internals);
    tx.Build(SourceAccount(sourceSeed), [build.RemoveTrust(asset.code, asset.issuer)]);

    if |signers| > 0 {
      tx.Sign(signers);
    } else {
      tx.Sign([sourceSeed]);
    }

    tx.Submit();
    assert tx.calls == Pipeline(sourceSeed, [build.RemoveTrust(asset.code, asset.issuer)], signers);
    err := tx.Err();
  }

  method SetMasterWeight(ms: MicroStellar, internals: Internals, sourceSeed: string, weight: build.Uint32,
                         signers: seq<string>) returns (err: Option<Error>)
    ensures err == internals(ms.networkName, Pipeline(sourceSeed, [build.MasterWeight(weight)], signers))
  {
    var tx := new Tx(ms.networkName, internals);
    tx.Build(SourceAccount(sourceSeed), [build.MasterWeight(weight)]);

    if |signers| > 0 {
      tx.Sign(signers);
    } else {
      tx.Sign([sourceSeed]);
    }

    tx.Submit();
    assert tx.calls == Pipeline(sourceSeed, [build.MasterWeight(weight)], signers);
    err := tx.Err();
  }

  method AddSigner(ms: MicroStellar, internals: Internals, sourceSeed: string, signerAddress: string,
                   signerWeight: build.Uint32, signers: seq<string>) returns (err: Option<Error>)
    ensures err == internals(ms.networkName,
      Pipeline(sourceSeed, [build.AddSigner(signerAddress, signerWeight)], signers))
  {
    var tx := new Tx(ms.networkName, internals);
    tx.Build(SourceAccount(sourceSeed), [build.AddSigner(signerAddress, signerWeight)]);

    if |signers| > 0 {
      tx.Sign(signers);
    } else {
      tx.Sign([sourceSeed]);
    }

    tx.Submit();
    assert tx.calls == Pipeline(sourceSeed, [build.AddSigner(signerAddress, signerWeight)], signers);
    err := tx.Err();
  }

  method RemoveSigner(ms: MicroStellar, internals: Internals, sourceSeed: string, signerAddress: string,
                      signers: seq<string>) returns (err: Option<Error>)
    ensures err == internals(ms.networkName, Pipeline(sourceSeed, [build.RemoveSigner(signerAddress)], signers))
  {
    var tx := new Tx(ms.networkName, internals);
    tx.Build(SourceAccount(sourceSeed), [build.RemoveSigner(signerAddress)]);

    if |signers| > 0 {
      tx.Sign(signers);
    } else {
      tx.Sign([sourceSeed]);
    }

    tx.Submit();
    assert tx.calls == Pipeline(sourceSeed, [build.RemoveSigner(signerAddress)], signers);
    err := tx.Err();
  }

  method SetThresholds(ms: MicroStellar, internals: Internals, sourceSeed: string,
                       low: build.Uint32, medium: build.Uint32, high: build.Uint32,
                       signers: seq<string>) returns (err: Option<Error>)
    ensures err == internals(ms.networkName,
      Pipeline(sourceSeed, [build.SetThresholds(low, medium, high)], signers))
  {
    var tx := new Tx(ms.networkName, internals);
    tx.Build(SourceAccount(sourceSeed), [build.SetThresholds(low, medium, high)]);

    if |signers| > 0 {
      tx.Sign(signers);
    } else {
      tx.Sign([sourceSeed]);
    }

    tx.Submit();
    assert tx.calls == Pipeline(sourceSeed, [build.SetThresholds(low, medium, high)], signers);
    err := tx.Err();
  }
}
