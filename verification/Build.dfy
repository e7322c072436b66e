// The quote, and the one transaction it stands for.
module Build {
  import opened Prelude
  import opened Stellar
  import opened Names
  import opened Plans
  import Claimants
  import Decimal

  datatype Quote = Quote(
    network: string, mode: Mode, source: Address, sponsor: Address, channel: Option<Address>,
    ops: seq<UserOp>, feeToken: AssetText, chargeStroops: int, sendMaxStroops: int,
    path: seq<AssetText>, reserveStroops: int, sequence: int, innerFeeStroops: nat,
    minTime: nat, maxTime: nat, expiresAtLedger: nat)
  {
    function TxSource(): Address {
      match mode
      case Sponsored => source
      case Bootstrap => if channel.None? then sponsor else channel.value
    }

    predicate Sandwiched() { reserveStroops > 0 }

    /** Where the user's operations start in the built list. */
    function First(): nat { if Sandwiched() then 1 else 0 }
  }

  const MAX_TRUSTLINE_LIMIT: int := I64_MAX

  function Account(a: Address): Result<AccountId, Error> { ToResult(ToAccountId(a), BadAccount(a)) }

  function NamedXdrAsset(a: NamedAsset): Result<Asset, Error> {
    match a
    case NamedNative => Ok(Native)
    case NamedCredit(code, issuer) =>
      var id :- Account(issuer);
      if |code| <= 12 then Ok(Credit(code, id)) else Err(BadAsset(CodeIssuer(code, issuer)))
  }

  function XdrAsset(s: AssetText): Result<Asset, Error> {
    var a :- ToResult(ParseAsset(s), BadAsset(s));
    NamedXdrAsset(a)
  }

  function Amount(s: string): Result<int, Error> {
    ToResult(Decimal.ParseAmountStroops(s), BadAmount(s))
  }

  function XdrAssets(path: seq<AssetText>): (r: Result<seq<Asset>, Error>)
    ensures r.Ok? ==> |r.value| == |path|
  {
    if path == [] then Ok([])
    else
      var hop :- XdrAsset(path[0]);
      var rest :- XdrAssets(path[1..]);
      Ok([hop] + rest)
  }

  /** At most five hops fit the XDR. */
  function PathAssets(path: seq<AssetText>): Result<seq<Asset>, Error> {
    var assets :- XdrAssets(path);
    if |assets| > 5 then Err(Unsupported("path too long")) else Ok(assets)
  }

  function ClaimableClaimants(source: Address, destination: Address): Result<seq<Claimant>, Error> {
    if source == destination then Err(Unsupported("cannot leave a claimable balance for yourself"))
    else
      var dest :- Account(destination);
      var sender :- Account(source);
      Ok(Claimants.ClaimantPair(sender, dest))
  }

  /** The account operations name when the transaction's source is not the user. */
  function UserSource(q: Quote): Result<Option<AccountId>, Error> {
    match q.mode
    case Sponsored => Ok(None)
    case Bootstrap =>
      var user :- Account(q.source);
      Ok(Some(user))
  }

  function SponsorshipSource(q: Quote): Result<Option<AccountId>, Error> {
    if q.TxSource() == q.sponsor then Ok(None)
    else
      var sponsor :- Account(q.sponsor);
      Ok(Some(sponsor))
  }

  function BeginOp(q: Quote): Result<Operation, Error> {
    var source :- SponsorshipSource(q);
    var user :- Account(q.source);
    Ok(Operation(source, BeginSponsoring(user)))
  }

  function EndOp(q: Quote): Result<Operation, Error> {
    var user :- Account(q.source);
    Ok(Operation(Some(user), EndSponsoring))
  }

  function BodyOf(q: Quote, op: UserOp): Result<OpBody, Error> {
    match op
    case Create(destination) =>
      var d :- Account(destination);
      Ok(CreateAccount(d, 0))
    case Pay(destination, asset, amount) =>
      var d :- Account(destination);
      var a :- XdrAsset(asset);
      var n :- Amount(amount);
      Ok(Payment(d, a, n))
    case Swap(destination, sendAsset, sendAmount, destAsset, destMin, path) =>
      var sa :- XdrAsset(sendAsset);
      var sn :- Amount(sendAmount);
      var d :- Account(destination);
      var da :- XdrAsset(destAsset);
      var dm :- Amount(destMin);
      var hops :- PathAssets(path);
      Ok(PathStrictSend(sa, sn, d, da, dm, hops))
    case Claim(id) =>
      var b :- ToResult(ParseBalanceId(id), BadAmount(id));
      Ok(ClaimClaimable(b))
    case Trust(asset, limit) =>
      var a :- XdrAsset(asset);
      var l :- (match limit case Some(text) => Amount(text) case None => Ok(MAX_TRUSTLINE_LIMIT));
      Ok(ChangeTrust(AssetLine(a), l))
    case Leave(destination, asset, amount) =>
      var a :- XdrAsset(asset);
      var n :- Amount(amount);
      var c :- ClaimableClaimants(q.source, destination);
      Ok(CreateClaimable(a, n, c))
  }

  /** `createAccount` never names a source: its funding side is the transaction's source. */
  function UserOperation(q: Quote, userSource: Option<AccountId>, op: UserOp): Result<Operation, Error> {
    var body :- BodyOf(q, op);
    Ok(Operation(if op.Create? then None else userSource, body))
  }

  function UserOperations(q: Quote, userSource: Option<AccountId>, ops: seq<UserOp>)
    : (r: Result<seq<Operation>, Error>)
    ensures r.Ok? ==> |r.value| == |ops|
  {
    if ops == [] then Ok([])
    else
      var front :- UserOperations(q, userSource, ops[..|ops| - 1]);
      var last :- UserOperation(q, userSource, ops[|ops| - 1]);
      Ok(front + [last])
  }

  function FeeOp(q: Quote): Result<Operation, Error> {
    var named :- ToResult(ParseAsset(q.feeToken), BadAsset(q.feeToken));
    var hops :- XdrAssets(q.path);
    var payer :- UserSource(q);
    var token :- NamedXdrAsset(named);
    var sponsor :- Account(q.sponsor);
    if |hops| > 5 then Err(Unsupported("path too long"))
    else Ok(Operation(payer, PathStrictReceive(token, q.sendMaxStroops, sponsor, Native, q.chargeStroops, hops)))
  }

  function Optional(wanted: bool, op: Result<Operation, Error>): Result<seq<Operation>, Error> {
    if !wanted then Ok([])
    else
      var o :- op;
      Ok([o])
  }

  function WithOps(q: Quote, source: AccountId, ops: seq<Operation>): Result<Transaction, Error> {
    if |ops| > 100 then Err(Unsupported("too many operations"))
    else Ok(Transaction(source, q.innerFeeStroops, q.sequence, q.minTime, q.maxTime, None, ops))
  }

  /** The transaction a quote stands for. */
  function Built(q: Quote): Result<Transaction, Error> {
    var source :- Account(q.TxSource());
    var begin :- Optional(q.Sandwiched(), BeginOp(q));
    var userSource :- UserSource(q);
    var body :- UserOperations(q, userSource, q.ops);
    var end :- Optional(q.Sandwiched(), EndOp(q));
    var fee :- FeeOp(q);
    WithOps(q, source, begin + body + end + [fee])
  }

  /** `build_inner`: operations are pushed one at a time onto a growing list. */
  method BuildInner(q: Quote) returns (r: Result<Transaction, Error>)
    ensures r == Built(q)
  {
    var source := Account(q.TxSource());
    if source.Err? { return Err(source.error); }
    var ops: seq<Operation> := [];
    if q.reserveStroops > 0 {
      var begin := BeginOp(q);
      if begin.Err? { return Err(begin.error); }
      ops := ops + [begin.value];
    }
    ghost var opening := ops;
    var userSource := UserSource(q);
    if userSource.Err? { return Err(userSource.error); }
    for i := 0 to |q.ops|
      invariant UserOperations(q, userSource.value, q.ops[..i]).Ok?
      invariant ops == opening + UserOperations(q, userSource.value, q.ops[..i]).value
    {
      assert q.ops[..i + 1][..i] == q.ops[..i];
      var op := UserOperation(q, userSource.value, q.ops[i]);
      if op.Err? { BuildErrorStays(q, userSource.value, q.ops, i); return Err(op.error); }
      ops := ops + [op.value];
    }
    assert q.ops[..|q.ops|] == q.ops;
    if q.reserveStroops > 0 {
      var end := EndOp(q);
      if end.Err? { return Err(end.error); }
      ops := ops + [end.value];
    }
    var fee := FeeOp(q);
    if fee.Err? { return Err(fee.error); }
    ops := ops + [fee.value];
    assert ops == Optional(q.Sandwiched(), BeginOp(q)).value + UserOperations(q, userSource.value, q.ops).value
                  + Optional(q.Sandwiched(), EndOp(q)).value + [fee.value];
    return WithOps(q, source.value, ops);
  }

  lemma {:induction false} BuildErrorStays(q: Quote, userSource: Option<AccountId>, ops: seq<UserOp>, i: nat)
    requires i < |ops| && UserOperations(q, userSource, ops[..i]).Ok?
    requires UserOperation(q, userSource, ops[i]).Err?
    ensures UserOperations(q, userSource, ops) == Err(UserOperation(q, userSource, ops[i]).error)
  {
    var front := ops[..|ops| - 1];
    if i + 1 == |ops| {
      assert front == ops[..i];
    } else {
      assert front[..i] == ops[..i];
      BuildErrorStays(q, userSource, front, i);
    }
  }

  lemma {:induction false} UserOperationAt(q: Quote, userSource: Option<AccountId>, ops: seq<UserOp>, i: nat)
    requires i < |ops| && UserOperations(q, userSource, ops).Ok?
    ensures UserOperation(q, userSource, ops[i]) == Ok(UserOperations(q, userSource, ops).value[i])
  {
    if i + 1 < |ops| { UserOperationAt(q, userSource, ops[..|ops| - 1], i); }
  }

  /** Everything around the operations is the quote's: nobody else's source, fee, number or time. */
  lemma BuiltCarries(q: Quote)
    requires Built(q).Ok?
    ensures var tx := Built(q).value;
      && Strkey(tx.source) == q.TxSource() && tx.fee == q.innerFeeStroops && tx.sequence == q.sequence
      && tx.minTime == q.minTime && tx.maxTime == q.maxTime && tx.memo == None
      && |tx.ops| <= 100
    ensures q.TxSource() == match q.mode
                            case Sponsored => q.source
                            case Bootstrap => (match q.channel case None => q.sponsor case Some(lane) => lane)
  {
    hide BeginOp, EndOp, FeeOp, UserOperations, UserSource;
  }

  /** A trustline without a limit of its own gets the largest there is, and one with a limit gets that. */
  lemma TrustLimit(q: Quote, asset: AssetText, limit: Option<string>)
    requires BodyOf(q, Trust(asset, limit)).Ok?
    ensures var body := BodyOf(q, Trust(asset, limit)).value;
      && body.ChangeTrust? && ReadAsset(asset).Some? && body.line == AssetLine(ReadAsset(asset).value)
      && (limit.None? ==> body.limit == 9_223_372_036_854_775_807)
      && (limit.Some? ==> Decimal.ParseAmountStroops(limit.value) == Some(body.limit))
  {
    hide ParseAsset, Decimal.ParseAmountStroops;
  }

  predicate ReadsAll(path: seq<AssetText>) { forall i :: 0 <= i < |path| ==> ReadAsset(path[i]).Some? }

  lemma {:induction false} PathBuilds(path: seq<AssetText>)
    ensures XdrAssets(path).Ok? <==> ReadsAll(path)
  {
    hide ParseAsset;
    if path == [] {
    } else {
      PathBuilds(path[1..]);
      AssetBuilds(path[0]);
      if ReadsAll(path[1..]) && ReadAsset(path[0]).Some? {
        forall i | 0 <= i < |path| ensures ReadAsset(path[i]).Some? {
          if i > 0 { assert path[i] == path[1..][i - 1]; }
        }
      }
      if ReadsAll(path) {
        forall i | 0 <= i < |path| - 1 ensures ReadAsset(path[1..][i]).Some? { assert path[1..][i] == path[i + 1]; }
      }
    }
  }

  lemma AssetBuilds(s: AssetText)
    ensures XdrAsset(s).Ok? <==> ReadAsset(s).Some?
    ensures XdrAsset(s).Ok? ==> ReadAsset(s) == Some(XdrAsset(s).value)
  {
  }

  /** Which operations can be built: those whose every text can be read, and nothing left for oneself. */
  predicate Buildable(source: Address, op: UserOp) {
    match op
    case Create(d) => d.Strkey?
    case Pay(d, asset, amount) =>
      d.Strkey? && ReadAsset(asset).Some? && Decimal.ParseAmountStroops(amount).Some?
    case Swap(d, sendAsset, sendAmount, destAsset, destMin, path) =>
      && d.Strkey? && ReadAsset(sendAsset).Some? && ReadAsset(destAsset).Some? && |path| <= 5 && ReadsAll(path)
      && Decimal.ParseAmountStroops(sendAmount).Some? && Decimal.ParseAmountStroops(destMin).Some?
    case Trust(asset, limit) =>
      ReadAsset(asset).Some? && (limit.Some? ==> Decimal.ParseAmountStroops(limit.value).Some?)
    case Claim(id) => IsBalanceId(id)
    case Leave(d, asset, amount) =>
      d.Strkey? && source.Strkey? && d != source && ReadAsset(asset).Some? && Decimal.ParseAmountStroops(amount).Some?
  }

  lemma BuildsOperation(q: Quote, op: UserOp)
    ensures BodyOf(q, op).Ok? <==> Buildable(q.source, op)
  {
    hide ReadAsset, ParseBalanceId, IsBalanceId, ParseAsset, Decimal.ParseAmountStroops, XdrAsset, XdrAssets, ReadsAll;
    match op
    case Pay(_, asset, _) => AssetBuilds(asset);
    case Trust(asset, _) => AssetBuilds(asset);
    case Leave(_, asset, _) => AssetBuilds(asset);
    case Claim(id) => BalanceIdsExactly(id);
    case Swap(_, sendAsset, _, destAsset, _, path) =>
      AssetBuilds(sendAsset);
      AssetBuilds(destAsset);
      PathBuilds(path);
    case Create(_) =>
  }

  lemma {:induction false} BuildsOperations(q: Quote, userSource: Option<AccountId>, ops: seq<UserOp>)
    ensures UserOperations(q, userSource, ops).Ok? <==> forall i :: 0 <= i < |ops| ==> Buildable(q.source, ops[i])
  {
    hide BodyOf, Buildable;
    if ops == [] {
    } else {
      var front := ops[..|ops| - 1];
      BuildsOperations(q, userSource, front);
      BuildsOperation(q, ops[|ops| - 1]);
      assert forall i :: 0 <= i < |front| ==> front[i] == ops[i];
    }
  }

  lemma BuildsFee(q: Quote)
    ensures FeeOp(q).Ok? <==> && ReadAsset(q.feeToken).Some? && ReadsAll(q.path) && |q.path| <= 5
                              && q.sponsor.Strkey? && (q.mode.Bootstrap? ==> q.source.Strkey?)
  {
    hide ReadsAll, XdrAssets;
    AssetBuilds(q.feeToken);
    PathBuilds(q.path);
  }

  /** Which quotes can be built: every account a key, every text readable, five hops, a hundred operations. */
  lemma BuildsExactly(q: Quote)
    ensures Built(q).Ok? <==>
      && q.TxSource().Strkey? && q.sponsor.Strkey? && (q.mode.Bootstrap? || q.reserveStroops > 0 ==> q.source.Strkey?)
      && (forall i :: 0 <= i < |q.ops| ==> Buildable(q.source, q.ops[i]))
      && ReadAsset(q.feeToken).Some? && |q.path| <= 5 && ReadsAll(q.path)
      && |q.ops| + (if q.reserveStroops > 0 then 3 else 1) <= 100
  {
    hide FeeOp, UserOperations, ReadsAll, Buildable, ReadAsset;
    BuildsFee(q);
    if UserSource(q).Ok? { BuildsOperations(q, UserSource(q).value, q.ops); }
  }

  /** What every built list looks like, position by position. */
  ghost predicate HasShape(q: Quote, tx: Transaction) {
    && Account(q.TxSource()) == Ok(tx.source)
    && |tx.ops| == |q.ops| + 2 * q.First() + 1 && |tx.ops| <= 100
    && UserSource(q).Ok?
    && (q.Sandwiched() ==> BeginOp(q) == Ok(tx.ops[0]) && EndOp(q) == Ok(tx.ops[|q.ops| + 1]))
    && (forall i :: 0 <= i < |q.ops| ==>
          UserOperation(q, UserSource(q).value, q.ops[i]) == Ok(tx.ops[q.First() + i]))
    && FeeOp(q) == Ok(tx.ops[|tx.ops| - 1])
  }

  lemma BuiltHasShape(q: Quote)
    requires Built(q).Ok?
    ensures HasShape(q, Built(q).value)
  {
    var tx := Built(q).value;
    var us := UserSource(q).value;
    var body := UserOperations(q, us, q.ops).value;
    forall i | 0 <= i < |q.ops|
      ensures UserOperation(q, us, q.ops[i]) == Ok(tx.ops[q.First() + i])
    {
      UserOperationAt(q, us, q.ops, i);
      assert tx.ops[q.First() + i] == body[i];
    }
  }

  /** The list in one line: sandwich, the user's operations, sandwich, fee. */
  lemma BuiltOps(q: Quote)
    requires Built(q).Ok?
    ensures UserSource(q).Ok? && UserOperations(q, UserSource(q).value, q.ops).Ok? && FeeOp(q).Ok?
    ensures Optional(q.Sandwiched(), BeginOp(q)).Ok? && Optional(q.Sandwiched(), EndOp(q)).Ok?
    ensures Built(q).value.ops
         == Optional(q.Sandwiched(), BeginOp(q)).value + UserOperations(q, UserSource(q).value, q.ops).value
            + Optional(q.Sandwiched(), EndOp(q)).value + [FeeOp(q).value]
  {
    hide BeginOp, EndOp, FeeOp, UserOperations;
  }

  /** Which account acts, operation by operation: the user everywhere but at the begin and in a createAccount. */
  lemma Authority(q: Quote, i: nat)
    requires Built(q).Ok? && i < |Built(q).value.ops|
    ensures var tx := Built(q).value; var op := tx.ops[i];
      && (op.body.BeginSponsoring? <==> q.Sandwiched() && i == 0)
      && (op.body.EndSponsoring? <==> q.Sandwiched() && i == |q.ops| + 1)
      && (op.body.BeginSponsoring? ==> Strkey(op.body.sponsoredId) == q.source
                                       && Strkey(EffectiveSource(op, tx.source)) == q.sponsor)
      && (Strkey(EffectiveSource(op, tx.source)) == q.source
          || op.body.BeginSponsoring?
          || (op.body.CreateAccount? && op.body.startingBalance == 0))
  {
    hide Built, XdrAsset, XdrAssets, NamedXdrAsset, Amount, PathAssets, ClaimableClaimants, ParseAsset, ParseBalanceId;
    BuiltHasShape(q);
    var tx := Built(q).value;
    if q.First() <= i < q.First() + |q.ops| {
      assert UserOperation(q, UserSource(q).value, q.ops[i - q.First()]) == Ok(tx.ops[q.First() + (i - q.First())]);
    } else if i == |tx.ops| - 1 {
      assert FeeOp(q) == Ok(tx.ops[i]);
    }
  }
}
