// The sponsor's keys: fee bumps, co-signatures, and who ends up having signed what.
module Signer {
  import opened Prelude
  import opened Stellar
  import opened Names
  import opened Plans
  import opened Build

  datatype SignError = FeeTooLow | TooManySignatures | UnknownChannel

  /** `wrap_fee_bump`'s fee: at the inner rate, and never below the network minimum. */
  function BumpFee(innerFee: nat, opCount: nat, baseFee: int): Result<int, SignError> {
    var ops := Max(opCount, 1);
    var perOp := CeilDiv(innerFee, ops);
    var raised := innerFee + Max(perOp, baseFee);
    if raised > I64_MAX then Err(FeeTooLow) else Ok(Max(raised, baseFee * (ops + 1)))
  }

  /** CAP-0015: the outer fee per operation, one more than inside, is at least the base and the inner rate. */
  predicate EnoughFor(fee: int, innerFee: nat, opCount: nat, baseFee: nat) {
    fee >= baseFee * (opCount + 1) && fee * opCount >= innerFee * (opCount + 1)
  }

  lemma BumpFeeClosedForm(innerFee: nat, opCount: nat, baseFee: nat)
    requires opCount > 0
    ensures Max(innerFee + Max(CeilDiv(innerFee, opCount), baseFee), baseFee * (opCount + 1))
         == Max(innerFee + CeilDiv(innerFee, opCount), baseFee * (opCount + 1))
  {
    var rate := CeilDiv(innerFee, opCount);
    CeilDivIsLeast(innerFee, opCount);
    assert baseFee * (opCount + 1) == baseFee * opCount + baseFee;
    if rate < baseFee { assert rate * opCount <= baseFee * opCount; }
  }

  /** Dividing the inner rate's condition by the operation count, exactly. */
  lemma RateBound(fee: int, innerFee: nat, n: nat)
    requires n > 0
    ensures fee * n >= innerFee * (n + 1) <==> fee >= innerFee + CeilDiv(innerFee, n)
  {
    var rate := CeilDiv(innerFee, n);
    CeilDivIsLeast(innerFee, n);
    var d := fee - innerFee;
    assert fee * n == innerFee * n + d * n;
    assert innerFee * (n + 1) == innerFee * n + innerFee;
    if d >= rate { TimesKeepsOrder(rate, d, n); }
    if d < rate { TimesKeepsOrder(d, rate - 1, n); assert (rate - 1) * n == rate * n - n; }
  }

  lemma TimesKeepsOrder(a: int, b: int, n: nat)
    requires a <= b
    ensures a * n <= b * n
  {
  }

  /** The fee is enough, and nothing less is. */
  lemma BumpFeeIsLeast(innerFee: nat, opCount: nat, baseFee: nat, other: int)
    requires opCount > 0 && BumpFee(innerFee, opCount, baseFee).Ok?
    ensures EnoughFor(other, innerFee, opCount, baseFee) <==> other >= BumpFee(innerFee, opCount, baseFee).value
  {
    BumpFeeClosedForm(innerFee, opCount, baseFee);
    RateBound(other, innerFee, opCount);
    hide CeilDiv;
  }

  /**
   * For the inner fee a quote carries, at the base fee it was quoted at, the bump costs exactly one
   * base fee per operation and one more; even when the quote's 32-bit product has wrapped around.
   */
  lemma BumpFeeOfQuote(baseFee: nat, opCount: nat)
    requires baseFee < TWO_32 && 0 < opCount <= 100
    ensures BumpFee(AsU32(baseFee * opCount), opCount, baseFee) == Ok(baseFee * (opCount + 1))
  {
    var full := baseFee * opCount;
    var inner := AsU32(full);
    assert 0 <= inner <= full <= 100 * TWO_32 by { TimesKeepsOrder(opCount, 100, baseFee); }
    CeilDivIsLeast(inner, opCount);
    var rate := CeilDiv(inner, opCount);
    assert rate <= baseFee by {
      if rate > baseFee { TimesKeepsOrder(baseFee, rate - 1, opCount); }
    }
    assert baseFee * (opCount + 1) == full + baseFee;
    hide CeilDiv, AsU32;
  }

  /** There is no fee exactly when the inner fee and one operation more, at either rate, pass 64 bits. */
  lemma BumpFeeFits(innerFee: nat, opCount: nat, baseFee: int)
    requires opCount > 0
    ensures var room := 9_223_372_036_854_775_807 - innerFee;
      BumpFee(innerFee, opCount, baseFee).Ok? <==> baseFee <= room && innerFee <= room * opCount
  {
    var room := I64_MAX - innerFee;
    var rate := CeilDiv(innerFee, opCount);
    CeilDivIsLeast(innerFee, opCount);
    if rate <= room { TimesKeepsOrder(rate, room, opCount); }
    if rate > room {
      TimesKeepsOrder(room, rate - 1, opCount);
      assert (rate - 1) * opCount == rate * opCount - opCount;
    }
    hide CeilDiv;
  }

  lemma BumpFeeError(innerFee: nat, opCount: nat, baseFee: int)
    ensures BumpFee(innerFee, opCount, baseFee).Err? ==> BumpFee(innerFee, opCount, baseFee) == Err(FeeTooLow)
  {
  }

  // ---------- Signing ----------

  const MAX_SIGNATURES: nat := 20

  /**
   * `co_sign`: what the others have signed stands, over the same transaction, and this key has signed
   * it too; refused exactly when there is no room for one signature more.
   */
  method CoSign(key: AccountId, envelope: TxEnvelope, network: string) returns (r: Result<TxEnvelope, SignError>)
    ensures r.Ok? <==> |envelope.signatures| < 20
    ensures r.Err? ==> r.error == TooManySignatures
    ensures r.Ok? ==> r.value.tx == envelope.tx
                      && r.value.signatures == envelope.signatures + [SignatureOf(key, envelope, network)]
    ensures r.Ok? ==> SignedBy(r.value, key, network)
  {
    var signatures := envelope.signatures;
    signatures := signatures + [SignatureOf(key, envelope, network)];
    if |signatures| > MAX_SIGNATURES { return Err(TooManySignatures); }
    assert signatures[|envelope.signatures|] == SignatureOf(key, envelope, network);
    return Ok(TxEnvelope(envelope.tx, signatures));
  }

  function CoSigned(key: AccountId, envelope: TxEnvelope, network: string): Result<TxEnvelope, SignError> {
    if |envelope.signatures| + 1 > MAX_SIGNATURES then Err(TooManySignatures)
    else Ok(TxEnvelope(envelope.tx, envelope.signatures + [SignatureOf(key, envelope, network)]))
  }

  function WrapFeeBump(key: AccountId, inner: TxEnvelope, baseFee: int, network: string): Result<Envelope, SignError> {
    var fee :- BumpFee(inner.tx.fee, |inner.tx.ops|, baseFee);
    Ok(FeeBump(key, fee, inner, [Signature(key, BumpPayload(network, key, fee, inner))]))
  }

  /** `ChannelPool::signer`: the lane configured under this address. */
  function LaneKey(lanes: seq<AccountId>, address: Address): Option<AccountId> {
    if lanes == [] then None
    else if Strkey(lanes[0]) == address then Some(lanes[0])
    else LaneKey(lanes[1..], address)
  }

  /**
   * `sign_bootstrap`. Refused exactly when the quote's lane is not configured here, there is no room
   * for the signatures, or the bump's fee does not fit. Otherwise the transaction and the user's
   * signatures come through untouched, the sponsor has signed, and so has a lane that is not the
   * sponsor; such a lane's transaction, and no other, is wrapped in a fee bump the sponsor pays and
   * signs, at the least fee.
   */
  method SignBootstrap(sponsorKey: AccountId, lanes: seq<AccountId>, q: Quote, inner: TxEnvelope, baseFee: int)
    returns (r: Result<Envelope, SignError>)
    ensures var own := q.TxSource() == q.sponsor;
      r.Ok? <==> && (own || exists k :: k in lanes && Strkey(k) == q.TxSource())
                 && |inner.signatures| + (if own then 1 else 2) <= 20
                 && (own || BumpFee(inner.tx.fee, |inner.tx.ops|, baseFee).Ok?)
    ensures r.Err? ==>
              var own := q.TxSource() == q.sponsor;
              r.error == if !own && !exists k :: k in lanes && Strkey(k) == q.TxSource() then UnknownChannel
                         else if |inner.signatures| + (if own then 1 else 2) > 20 then TooManySignatures
                         else FeeTooLow
    ensures r.Ok? ==> r.value.inner.tx == inner.tx && inner.signatures <= r.value.inner.signatures
    ensures r.Ok? ==> SignedBy(r.value.inner, sponsorKey, q.network)
    ensures r.Ok? && q.TxSource() != q.sponsor ==>
              q.TxSource().Strkey? && SignedBy(r.value.inner, q.TxSource().id, q.network)
    ensures r.Ok? ==>
              var payload := TxPayload(q.network, inner.tx);
              r.value.inner.signatures
              == inner.signatures + (if q.TxSource() == q.sponsor then [] else [Signature(q.TxSource().id, payload)])
                 + [Signature(sponsorKey, payload)]
    ensures r.Ok? ==> (r.value.Plain? <==> q.TxSource() == q.sponsor)
    ensures r.Ok? && r.value.FeeBump? ==>
              && r.value.feeSource == sponsorKey
              && BumpFee(inner.tx.fee, |inner.tx.ops|, baseFee) == Ok(r.value.fee)
              && var payload := BumpPayload(q.network, sponsorKey, r.value.fee, r.value.inner);
                 r.value.signatures == [Signature(sponsorKey, payload)]
    ensures r == BootstrapSigned(sponsorKey, lanes, q, inner, baseFee)
  {
    hide BumpFee;
    LaneKeyFound(lanes, q.TxSource());
    BumpFeeError(inner.tx.fee, |inner.tx.ops|, baseFee);
    var lane := q.TxSource();
    var envelope := inner;
    if lane != q.sponsor {
      var channel := LaneKey(lanes, lane);
      if channel.None? { return Err(UnknownChannel); }
      var signed := CoSign(channel.value, envelope, q.network);
      if signed.Err? { return Err(signed.error); }
      envelope := signed.value;
    }
    var signed := CoSign(sponsorKey, envelope, q.network);
    if signed.Err? { return Err(signed.error); }
    StillSigned(envelope, signed.value);
    envelope := signed.value;
    if lane == q.sponsor { return Ok(Plain(envelope)); }
    return WrapFeeBump(sponsorKey, envelope, baseFee, q.network);
  }

  lemma LaneKeyFound(lanes: seq<AccountId>, address: Address)
    ensures LaneKey(lanes, address).Some? <==> exists k :: k in lanes && Strkey(k) == address
    ensures LaneKey(lanes, address).Some? ==> Strkey(LaneKey(lanes, address).value) == address
  {
  }

  lemma StillSigned(before: TxEnvelope, after: TxEnvelope)
    requires before.tx == after.tx && before.signatures <= after.signatures
    ensures forall who, network :: SignedBy(before, who, network) ==> SignedBy(after, who, network)
  {
    forall who, network | SignedBy(before, who, network) ensures SignedBy(after, who, network) {
      var i :| 0 <= i < |before.signatures| && before.signatures[i] == SignatureOf(who, before, network);
      assert after.signatures[i] == before.signatures[i];
    }
  }

  function BootstrapSigned(sponsorKey: AccountId, lanes: seq<AccountId>, q: Quote, inner: TxEnvelope, baseFee: int)
    : Result<Envelope, SignError>
  {
    if q.TxSource() == q.sponsor then
      var signed :- CoSigned(sponsorKey, inner, q.network);
      Ok(Plain(signed))
    else
      var channel :- ToResult(LaneKey(lanes, q.TxSource()), UnknownChannel);
      var byLane :- CoSigned(channel, inner, q.network);
      var both :- CoSigned(sponsorKey, byLane, q.network);
      WrapFeeBump(sponsorKey, both, baseFee, q.network)
  }

  // ---------- Coverage ----------

  /** Nobody else sources anything in a built transaction. */
  lemma SourcesOf(q: Quote, tx: Transaction, i: nat)
    requires HasShape(q, tx) && q.source.Strkey? && i < |tx.ops|
    ensures var a := EffectiveSource(tx.ops[i], tx.source);
      Strkey(a) == q.source || Strkey(a) == q.TxSource() || (q.Sandwiched() && i == 0 && Strkey(a) == q.sponsor)
  {
    hide BodyOf;
    if q.First() <= i < q.First() + |q.ops| {
      assert UserOperation(q, UserSource(q).value, q.ops[i - q.First()]) == Ok(tx.ops[q.First() + (i - q.First())]);
    } else if i == |tx.ops| - 1 {
      assert FeeOp(q) == Ok(tx.ops[i]);
    } else {
      assert q.Sandwiched();
    }
  }

  /**
   * Whatever lane a bootstrap quote was given, once the user has signed, the envelope carries a
   * signature of every account the network will ask for, over an unchanged inner transaction.
   */
  lemma BootstrapCovered(sponsorKey: AccountId, lanes: seq<AccountId>, q: Quote, inner: TxEnvelope, baseFee: int)
    requires Built(q) == Ok(inner.tx) && q.mode.Bootstrap? && q.sponsor == Strkey(sponsorKey)
    requires q.source.Strkey? && SignedBy(inner, q.source.id, q.network)
    requires BootstrapSigned(sponsorKey, lanes, q, inner, baseFee).Ok?
    ensures var e := BootstrapSigned(sponsorKey, lanes, q, inner, baseFee).value;
      && e.inner.tx == inner.tx && Covered(e.inner, q.network)
      && (forall s :: s in inner.signatures ==> s in e.inner.signatures)
      && (e.FeeBump? ==> e.signatures == [Signature(e.feeSource, BumpPayload(q.network, e.feeSource, e.fee, e.inner))]
                         && e.feeSource == sponsorKey)
  {
    BuiltHasShape(q);
    var e := BootstrapSigned(sponsorKey, lanes, q, inner, baseFee).value;
    if q.TxSource() != q.sponsor { LaneKeyFound(lanes, q.TxSource()); }
    assert SignedBy(e.inner, q.source.id, q.network) && SignedBy(e.inner, sponsorKey, q.network);
    assert SignedBy(e.inner, inner.tx.source, q.network);
    forall i | 0 <= i < |inner.tx.ops|
      ensures SignedBy(e.inner, EffectiveSource(inner.tx.ops[i], inner.tx.source), q.network)
    {
      SourcesOf(q, inner.tx, i);
    }
  }

  /**
   * A sponsored quote is only bumped: the sponsor signs the outside. With signatures of the user
   * alone inside, they cover the transaction exactly when there is no sandwich to open.
   */
  lemma SponsoredCoveredExactlyWithoutSandwich(q: Quote, inner: TxEnvelope)
    requires Built(q) == Ok(inner.tx) && q.mode.Sponsored? && q.source.Strkey? && q.sponsor != q.source
    requires SignedBy(inner, q.source.id, q.network)
    requires forall s :: s in inner.signatures ==> s.signer == q.source.id
    ensures Covered(inner, q.network) <==> !q.Sandwiched()
  {
    BuiltHasShape(q);
    if q.Sandwiched() {
      assert BeginOp(q) == Ok(inner.tx.ops[0]);
      assert Strkey(EffectiveSource(inner.tx.ops[0], inner.tx.source)) == q.sponsor;
    } else {
      forall i | 0 <= i < |inner.tx.ops|
        ensures SignedBy(inner, EffectiveSource(inner.tx.ops[i], inner.tx.source), q.network)
      {
        SourcesOf(q, inner.tx, i);
      }
    }
  }
}
