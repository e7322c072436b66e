// What acceptance means for the user alone: the payload is the service's to invent, the request is not.
module RequestOnly {
  import opened Prelude
  import opened Stellar
  import opened Names
  import opened Plans
  import opened Decimal
  import opened Build
  import opened Verify
  import opened Agreement

  /** What the XDR of a transaction bounds: operations, hops, and the size of a hash. */
  predicate Encodable(tx: Transaction) {
    |tx.ops| <= 100 && forall i :: 0 <= i < |tx.ops| ==> WellSized(tx.ops[i].body) && |HopsOf(tx.ops[i].body)| <= 5
  }

  function HopsOf(body: OpBody): seq<Asset> {
    match body
    case PathStrictSend(_, _, _, _, _, path) => path
    case PathStrictReceive(_, _, _, _, _, path) => path
    case _ => []
  }

  function AssetTexts(op: UserOp): seq<AssetText> {
    match op
    case Pay(_, asset, _) => [asset]
    case Swap(_, sendAsset, _, destAsset, _, path) => [sendAsset, destAsset] + path
    case Trust(asset, _) => [asset]
    case Leave(_, asset, _) => [asset]
    case _ => []
  }

  function AmountTexts(op: UserOp): seq<string> {
    match op
    case Pay(_, _, amount) => [amount]
    case Swap(_, _, sendAmount, _, destMin, _) => [sendAmount, destMin]
    case Trust(_, limit) => if limit.Some? then [limit.value] else []
    case Leave(_, _, amount) => [amount]
    case _ => []
  }

  /** Every amount and every asset of the operation is spelled in a way the service reads. */
  predicate Spelled(op: UserOp) {
    && (forall k :: 0 <= k < |AssetTexts(op)| ==> XdrAsset(AssetTexts(op)[k]).Ok?)
    && (forall k :: 0 <= k < |AmountTexts(op)| ==> Amount(AmountTexts(op)[k]).Ok?)
  }

  predicate RequestSpelled(r: Request) {
    XdrAsset(r.feeToken).Ok? && forall i :: 0 <= i < |r.ops| ==> Spelled(r.ops[i])
  }

  function Respelled(s: AssetText): AssetText {
    if AssetOf(s).Some? then Canonical(AssetOf(s).value) else s
  }

  /** The payload with everything the request also says in the request's own words. */
  function InOwnWords(p: Quote, r: Request): Quote {
    p.(ops := r.ops, feeToken := r.feeToken,
       path := seq(|p.path|, i requires 0 <= i < |p.path| => Respelled(p.path[i])))
  }

  // ---------- The rewording changes nothing the checker looks at ----------

  lemma SameOpItself(got: UserOp, want: UserOp)
    requires SameOp(got, want)
    ensures SameOp(want, want)
  {
    hide ToStroops, AssetOf;
  }

  lemma RespelledReads(s: AssetText)
    requires AssetOf(s).Some?
    ensures AssetOf(Respelled(s)) == AssetOf(s) && XdrAsset(Respelled(s)) == Ok(AssetOf(s).value)
  {
  }

  lemma RewordedRoute(route: seq<Asset>, path: seq<AssetText>, respelled: seq<AssetText>)
    requires SameRoute(route, path) && |respelled| == |path|
    requires forall i :: 0 <= i < |path| ==> respelled[i] == Respelled(path[i])
    ensures SameRoute(route, respelled) && HopsReadable(respelled) && XdrAssets(respelled) == Ok(route)
  {
    hide AssetOf, XdrAsset;
    forall i | 0 <= i < |path|
      ensures SameAsset(route[i], respelled[i]) && AssetOf(respelled[i]).Some? && XdrAsset(respelled[i]) == Ok(route[i])
    {
      assert SameAsset(route[i], path[i]);
      RespelledReads(path[i]);
    }
    XdrAssetsFrom(respelled, route);
  }

  lemma {:induction false} XdrAssetsFrom(path: seq<AssetText>, route: seq<Asset>)
    requires |route| == |path| && forall i :: 0 <= i < |path| ==> XdrAsset(path[i]) == Ok(route[i])
    ensures XdrAssets(path) == Ok(route)
  {
    hide XdrAsset;
    if path == [] {
    } else {
      XdrAssetsFrom(path[1..], route[1..]);
      assert route == [route[0]] + route[1..];
    }
  }

  lemma RewordedFee(op: Operation, p: Quote, r: Request)
    requires PaysFee(op, p) && SameAssetText(p.feeToken, r.feeToken)
    ensures PaysFee(op, InOwnWords(p, r)) && XdrAssets(InOwnWords(p, r).path) == Ok(op.body.path)
  {
    hide AssetOf, ShowsAmount, SameRoute, XdrAssets;
    RewordedRoute(op.body.path, p.path, InOwnWords(p, r).path);
  }

  lemma AcceptedReworded(tx: Transaction, signatures: seq<Signature>, p: Quote, r: Request, e: Expectations)
    requires Accepts(Plain(TxEnvelope(tx, signatures)), p, r, e)
    ensures Accepts(Plain(TxEnvelope(tx, signatures)), InOwnWords(p, r), r, e)
    ensures tx.ops[|tx.ops| - 1].body.PathStrictReceive?
    ensures XdrAssets(InOwnWords(p, r).path) == Ok(tx.ops[|tx.ops| - 1].body.path)
  {
    hide SameOp, AssetOf, PaysFee, SdkReads, BodyMatches, StroopsOf, OpensSandwich, ClosesSandwich, XdrAssets;
    var own := InOwnWords(p, r);
    forall i | 0 <= i < |r.ops| ensures SameOp(r.ops[i], r.ops[i]) { SameOpItself(p.ops[i], r.ops[i]); }
    RewordedFee(tx.ops[|tx.ops| - 1], p, r);
    FeeIsPath(tx.ops[|tx.ops| - 1], p);
    if p.Sandwiched() { RewordedEdges(tx.ops[0], tx.ops[|r.ops| + 1], tx.source, p, r); }
  }

  lemma FeeIsPath(op: Operation, p: Quote)
    requires PaysFee(op, p)
    ensures op.body.PathStrictReceive?
  {
  }

  lemma RewordedEdges(first: Operation, last: Operation, source: AccountId, p: Quote, r: Request)
    requires OpensSandwich(first, source, p) && ClosesSandwich(last, p)
    ensures OpensSandwich(first, source, InOwnWords(p, r)) && ClosesSandwich(last, InOwnWords(p, r))
  {
  }

  // ---------- When the service can build it ----------

  lemma TwoNeverOne(claimants: seq<Claimant>, who: Address)
    ensures !PairNames(claimants, who, who)
  {
  }

  lemma {:induction false} RouteSpelled(path: seq<AssetText>)
    ensures XdrAssets(path).Ok? <==> forall i :: 0 <= i < |path| ==> XdrAsset(path[i]).Ok?
  {
    hide XdrAsset;
    if path == [] {
    } else {
      RouteSpelled(path[1..]);
      if XdrAssets(path).Ok? {
        forall i | 0 <= i < |path| ensures XdrAsset(path[i]).Ok? {
          if i > 0 { assert path[i] == path[1..][i - 1]; }
        }
      }
    }
  }

  lemma SwapBuildable(q: Quote, op: UserOp)
    requires op.Swap? && op.destination.Strkey? && |op.path| <= 5
    ensures BodyOf(q, op).Ok? <==> Spelled(op)
  {
    hide XdrAsset, Amount, XdrAssets;
    RouteSpelled(op.path);
    var texts := AssetTexts(op);
    assert texts[0] == op.sendAsset && texts[1] == op.destAsset;
    assert AmountTexts(op)[0] == op.sendAmount && AmountTexts(op)[1] == op.destMin;
    assert forall k :: 0 <= k < |op.path| ==> texts[k + 2] == op.path[k];
    assert forall k :: 2 <= k < |texts| ==> texts[k] == op.path[k - 2];
  }

  /** An operation the checker passed is one the service can write, as far as its spelling goes. */
  lemma PassedIsBuildable(q: Quote, got: Operation, want: UserOp)
    requires UserOpMatches(got, want, q.source) && q.source.Strkey?
    requires WellSized(got.body) && |HopsOf(got.body)| <= 5
    ensures BodyOf(q, want).Ok? <==> Spelled(want)
  {
    hide XdrAsset, Amount, ShowsAmount, SameAsset, XdrAssets;
    match want
    case Leave(destination, asset, amount) =>
      TwoNeverOne(got.body.claimants, q.source);
      LeaveNames(got.body.claimants, q.source, destination);
      assert AssetTexts(want)[0] == asset && AmountTexts(want)[0] == amount;
    case Pay(_, asset, amount) => assert AssetTexts(want)[0] == asset && AmountTexts(want)[0] == amount;
    case Trust(asset, limit) =>
      assert AssetTexts(want)[0] == asset;
      if limit.Some? { assert AmountTexts(want)[0] == limit.value; }
    case Claim(id) => ParseRendered(got.body.balanceId);
    case Swap(_, _, _, _, _, _) => SwapBuildable(q, want);
    case Create(_) =>
  }

  lemma LeaveNames(claimants: seq<Claimant>, source: Address, destination: Address)
    requires PairNames(claimants, source, destination)
    ensures destination.Strkey?
  {
    var a, b := claimants[0], claimants[1];
    assert claimants == [a, b];
    FindOfTwo(a, b, destination);
  }

  lemma {:induction false} OperationsBuildable(q: Quote, userSource: Option<AccountId>, ops: seq<UserOp>)
    ensures UserOperations(q, userSource, ops).Ok? <==> forall i :: 0 <= i < |ops| ==> BodyOf(q, ops[i]).Ok?
  {
    hide BodyOf;
    if ops == [] {
    } else {
      var front := ops[..|ops| - 1];
      OperationsBuildable(q, userSource, front);
      assert forall i :: 0 <= i < |front| ==> front[i] == ops[i];
    }
  }

  lemma FeeSpelled(q: Quote, op: Operation)
    requires PaysFee(op, q) && XdrAssets(q.path) == Ok(op.body.path) && |op.body.path| <= 5
    requires q.source.Strkey?
    ensures FeeOp(q).Ok? <==> XdrAsset(q.feeToken).Ok?
  {
    hide XdrAssets, ShowsAmount, SameAsset, SameRoute;
  }

  lemma EdgesBuildable(q: Quote, tx: Transaction, last: Operation)
    requires Strkey(tx.source) == q.TxSource() && |tx.ops| > 0
    requires OpensSandwich(tx.ops[0], tx.source, q) && ClosesSandwich(last, q)
    ensures BeginOp(q).Ok? && EndOp(q).Ok? && q.source.Strkey?
  {
  }

  lemma UserNamed(q: Quote, tx: Transaction)
    requires Strkey(tx.source) == q.TxSource() && |tx.ops| > 0 && PaysFee(tx.ops[|tx.ops| - 1], q)
    ensures q.source.Strkey?
  {
    hide ShowsAmount, SameAsset, SameRoute;
  }

  /** The builder fails only where one of its parts does, or for want of room. */
  lemma BuiltExactlyWhen(q: Quote)
    requires Account(q.TxSource()).Ok? && UserSource(q).Ok?
    ensures Built(q).Ok? <==>
      && (q.Sandwiched() ==> BeginOp(q).Ok? && EndOp(q).Ok?)
      && UserOperations(q, UserSource(q).value, q.ops).Ok? && FeeOp(q).Ok?
      && |q.ops| + 2 * q.First() + 1 <= 100
  {
    hide BeginOp, EndOp, FeeOp, UserOperations;
  }

  lemma BodyBuildable(ops: seq<Operation>, q: Quote, requested: seq<UserOp>)
    requires q.First() + |requested| <= |ops| && BodyMatches(ops, q.First(), requested, q.source) && q.source.Strkey?
    requires forall i :: 0 <= i < |ops| ==> WellSized(ops[i].body) && |HopsOf(ops[i].body)| <= 5
    ensures (forall i :: 0 <= i < |requested| ==> BodyOf(q, requested[i]).Ok?)
       <==> (forall i :: 0 <= i < |requested| ==> Spelled(requested[i]))
  {
    hide UserOpMatches, BodyOf, Spelled, WellSized, HopsOf;
    forall i | 0 <= i < |requested| ensures BodyOf(q, requested[i]).Ok? <==> Spelled(requested[i]) {
      assert UserOpMatches(ops[q.First() + i], requested[i], q.source);
      PassedIsBuildable(q, ops[q.First() + i], requested[i]);
    }
  }

  lemma AcceptedBuildable(tx: Transaction, q: Quote, r: Request)
    requires Strkey(tx.source) == q.TxSource() && Matches(tx, q, r.ops) && Encodable(tx)
    requires q.ops == r.ops && q.feeToken == r.feeToken
    requires tx.ops[|tx.ops| - 1].body.PathStrictReceive?
    requires XdrAssets(q.path) == Ok(tx.ops[|tx.ops| - 1].body.path)
    ensures Built(q).Ok? <==> RequestSpelled(r)
  {
    hide PaysFee, OpensSandwich, ClosesSandwich, XdrAsset, XdrAssets, BodyOf, Spelled;
    hide BeginOp, EndOp, FeeOp, UserOperations, WellSized, BodyMatches, Built;
    UserNamed(q, tx);
    FeeSpelled(q, tx.ops[|tx.ops| - 1]);
    BuiltExactlyWhen(q);
    OperationsBuildable(q, UserSource(q).value, q.ops);
    BodyBuildable(tx.ops, q, r.ops);
    if q.Sandwiched() { EdgesBuildable(q, tx, tx.ops[|r.ops| + 1]); }
  }

  /**
   * Soundness with nothing taken from the service. Whatever transaction and whatever payload are
   * sent: if the checker hands the transaction back for signing, then the service's own builder, given
   * the user's operations and fee token in the user's words, makes a transaction exactly when those
   * words are ones it reads, and what it makes is the accepted one up to the normal form.
   */
  lemma AcceptedIsTheRequest(tx: Transaction, signatures: seq<Signature>, p: Quote, r: Request, e: Expectations)
    requires Accepts(Plain(TxEnvelope(tx, signatures)), p, r, e) && Encodable(tx)
    ensures var own := InOwnWords(p, r);
      && (Built(own).Ok? <==> RequestSpelled(r))
      && (RequestSpelled(r) ==> IsBuiltUpToNormalForm(tx, own))
  {
    hide QuoteAnswers, SdkReads, Matches, Built, IsBuiltUpToNormalForm, RequestSpelled, XdrAssets, WellSized;
    AcceptedReworded(tx, signatures, p, r, e);
    var own := InOwnWords(p, r);
    AcceptedBuildable(tx, own, r);
    if Built(own).Ok? { VerifierSound(tx, signatures, own, r, e); }
  }
}
