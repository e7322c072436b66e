// The service's builder and the SDK's checker agree: one prints the shape the other parses.
module Agreement {
  import opened Prelude
  import opened Stellar
  import opened Names
  import opened Plans
  import opened Decimal
  import opened Build
  import opened Verify
  import Claimants

  // ---------- Amounts, assets and routes ----------

  /** `BigInt("-0")` loses the sign, so a negative amount of less than one unit reads as its opposite. */
  function Unsign(x: int): int { if x < 0 < x + STROOPS_PER_UNIT then -x else x }

  lemma ShownAmount(x: int, quoted: string, requested: string)
    requires Amount(quoted).Ok? && SameAmount(quoted, requested)
    ensures ShowsAmount(x, requested) <==> Unsign(x) == Amount(quoted).value
  {
    ToStroopsAgreesWithParse(quoted);
    RenderedReadsAsShown(x);
    ShownCollides(x, Amount(quoted).value);
  }

  lemma ShownZero(x: int)
    ensures ShowsAmount(x, "0") <==> x == 0
  {
    ZeroText();
    RenderedReadsAsShown(x);
    hide ToStroops;
    ShownCollides(x, 0);
  }

  lemma ZeroText()
    ensures ToStroops("0") == Some(0)
  {
    SplitOnceOf("0", "", '.');
    assert SplitTwo("0") == ("0", "");
    BigIntOfDigits("0");
    BigIntOfDigits(Zeros(7));
    ZerosWorthNothing(7);
    assert SevenPlaces("") == Zeros(7);
    hide BigInt, SplitTwo, SevenPlaces, Zeros;
  }

  lemma ShownRendered(x: int, y: int)
    ensures ShowsAmount(x, FormatStroops(y)) <==> Unsign(x) == Unsign(y)
  {
    SameAmountRendered(x, y);
  }

  /** A payment of minus five stroops passes for one of five; no ledger would carry it out. */
  lemma NegativeDustPasses(destination: AccountId, source: Address)
    ensures VerifyOp(Payment(destination, Native, -5), Pay(Strkey(destination), NativeText, FormatStroops(5)), source)
  {
    hide FormatStroops, SameAmount;
    SameAmountRendered(-5, 5);
  }

  lemma XdrAssetReads(s: AssetText)
    ensures XdrAsset(s).Ok? <==> ReadAsset(s).Some?
    ensures XdrAsset(s).Ok? ==> ReadAsset(s) == Some(XdrAsset(s).value)
  {
  }

  lemma ShownAsset(a: Asset, quoted: AssetText, requested: AssetText)
    requires XdrAsset(quoted).Ok? && SameAssetText(quoted, requested)
    ensures SameAsset(a, requested) <==> a == XdrAsset(quoted).value
  {
    XdrAssetReads(quoted);
    AssetReadersAgree(quoted);
  }

  lemma {:induction false} XdrAssetsAt(path: seq<AssetText>, i: nat)
    requires XdrAssets(path).Ok? && i < |path|
    ensures XdrAsset(path[i]) == Ok(XdrAssets(path).value[i])
  {
    if i > 0 { XdrAssetsAt(path[1..], i - 1); }
  }

  predicate HopsReadable(path: seq<AssetText>) {
    forall i :: 0 <= i < |path| ==> AssetOf(path[i]).Some?
  }

  lemma ShownRoute(route: seq<Asset>, quoted: seq<AssetText>, requested: seq<AssetText>)
    requires XdrAssets(quoted).Ok? && |quoted| == |requested|
    requires forall i :: 0 <= i < |quoted| && AssetOf(requested[i]).Some? ==> SameAssetText(quoted[i], requested[i])
    ensures SameRoute(route, requested) <==> route == XdrAssets(quoted).value && HopsReadable(requested)
  {
    var built := XdrAssets(quoted).value;
    forall i | 0 <= i < |quoted| && |route| == |quoted|
      ensures SameAsset(route[i], requested[i]) <==> route[i] == built[i] && AssetOf(requested[i]).Some?
    {
      XdrAssetsAt(quoted, i);
      if AssetOf(requested[i]).Some? { ShownAsset(route[i], quoted[i], requested[i]); }
    }
    if |route| == |quoted| {
      if SameRoute(route, requested) {
        forall i | 0 <= i < |route| ensures route[i] == built[i] && AssetOf(requested[i]).Some? {
          assert SameAsset(route[i], requested[i]);
        }
        assert route == built;
      }
      if route == built && HopsReadable(requested) {
        forall i | 0 <= i < |route| ensures SameAsset(route[i], requested[i]) {
          assert AssetOf(requested[i]).Some?;
        }
      }
    }
  }

  // ---------- Claimants ----------

  lemma FindOfTwo(a: Claimant, b: Claimant, who: Address)
    ensures FindClaimant([a, b], who)
         == if Strkey(a.destination) == who then Some(a) else if Strkey(b.destination) == who then Some(b) else None
  {
    assert [a, b][1..] == [b] && [b][1..] == [];
    assert FindClaimant([b], who) == if Strkey(b.destination) == who then Some(b) else None;
  }

  lemma PairIsUnordered(claimants: seq<Claimant>, source: AccountId, destination: AccountId)
    requires source != destination
    ensures PairNames(claimants, Strkey(source), Strkey(destination))
       <==> multiset(claimants) == multiset(Claimants.ClaimantPair(source, destination))
  {
    Claimants.PairSorted(source, destination);
    var pair := multiset(Claimants.ClaimantPair(source, destination));
    if |claimants| == 2 {
      var a, b := claimants[0], claimants[1];
      assert claimants == [a, b] && claimants[1..] == [b] && claimants[1..][1..] == [];
      assert multiset(claimants) == multiset{a, b};
      var dest, reclaim := Claimant(destination, Unconditional), Claimant(source, Claimants.RECLAIM_CONDITION);
      assert pair == multiset{dest, reclaim};
      FindOfTwo(a, b, Strkey(source));
      FindOfTwo(a, b, Strkey(destination));
      TwoOf(a, b, dest, reclaim);
    } else {
      assert |multiset(claimants)| == |claimants|;
      assert |pair| == 2;
    }
  }

  lemma TwoOf<T>(a: T, b: T, x: T, y: T)
    ensures multiset{a, b} == multiset{x, y} <==> (a == x && b == y) || (a == y && b == x)
  {
    assert multiset{a, b} - multiset{a} == multiset{b};
    assert multiset{x, y} - multiset{x} == multiset{y};
    assert multiset{x, y} == multiset{y, x};
    if multiset{a, b} == multiset{x, y} {
      assert a in multiset{x, y};
      if a == x { assert b in multiset{y}; } else { assert b in multiset{a, b} - multiset{a}; }
    }
  }

  // ---------- The same request ----------

  lemma SameAmountReads(a: string, b: string)
    requires Amount(a).Ok? && Amount(b).Ok?
    ensures SameAmount(a, b) <==> Amount(a) == Amount(b)
  {
    hide ToStroops, ParseAmountStroops;
    ToStroopsAgreesWithParse(a);
    ToStroopsAgreesWithParse(b);
  }

  lemma SameAssetReads(a: AssetText, b: AssetText)
    requires XdrAsset(a).Ok? && XdrAsset(b).Ok? && SdkAsset(XdrAsset(a).value) && SdkAsset(XdrAsset(b).value)
    ensures SameAssetText(a, b) <==> XdrAsset(a) == XdrAsset(b)
  {
    XdrAssetReads(a);
    XdrAssetReads(b);
    ReadableByBoth(a);
    ReadableByBoth(b);
    AssetReadersAgree(a);
    AssetReadersAgree(b);
  }

  lemma SameRouteReads(a: seq<AssetText>, b: seq<AssetText>)
    requires XdrAssets(a).Ok? && XdrAssets(b).Ok?
    requires forall i :: 0 <= i < |a| ==> SdkAsset(XdrAssets(a).value[i])
    requires forall i :: 0 <= i < |b| ==> SdkAsset(XdrAssets(b).value[i])
    ensures SameRouteText(a, b) <==> XdrAssets(a) == XdrAssets(b)
  {
    hide SameAssetText, SdkAsset, XdrAsset, XdrAssets;
    var x, y := XdrAssets(a).value, XdrAssets(b).value;
    if |a| == |b| {
      forall i | 0 <= i < |a| ensures SameAssetText(a[i], b[i]) <==> x[i] == y[i] {
        XdrAssetsAt(a, i);
        XdrAssetsAt(b, i);
        SameAssetReads(a[i], b[i]);
      }
      assert x == y <==> forall i :: 0 <= i < |a| ==> x[i] == y[i];
    }
  }

  /**
   * Two operations, as callers write them, are the same exactly when they are built the same, and leave
   * the same open: a limit that was not named is not the largest one named.
   */
  lemma SameOpExactly(q: Quote, a: UserOp, b: UserOp)
    requires BodyOf(q, a).Ok? && BodyOf(q, b).Ok?
    requires SdkReadsOp(BodyOf(q, a).value) && SdkReadsOp(BodyOf(q, b).value)
    ensures SameOp(a, b) <==>
      BodyOf(q, a) == BodyOf(q, b) && (a.Trust? && b.Trust? ==> (a.limit.None? <==> b.limit.None?))
  {
    hide SameAmount, SameAssetText, SameRouteText, XdrAsset, XdrAssets, Amount, SdkAsset, ParseBalanceId;
    KindIsKept(q, a);
    KindIsKept(q, b);
    if a.Pay? && b.Pay? {
      AssetsRead(q, a);
      AssetsRead(q, b);
      SameAmountReads(a.amount, b.amount);
      SameAssetReads(a.asset, b.asset);
    } else if a.Leave? && b.Leave? {
      AssetsRead(q, a);
      AssetsRead(q, b);
      SameAmountReads(a.amount, b.amount);
      SameAssetReads(a.asset, b.asset);
      if a.destination.id != b.destination.id { PairTells(q.source.id, a.destination.id, b.destination.id); }
    } else if a.Trust? && b.Trust? {
      AssetsRead(q, a);
      AssetsRead(q, b);
      SameAssetReads(a.asset, b.asset);
      if a.limit.Some? && b.limit.Some? { SameAmountReads(a.limit.value, b.limit.value); }
    } else if a.Claim? && b.Claim? {
      SameBalanceId(a.balanceId, b.balanceId);
    } else if a.Swap? && b.Swap? {
      SameSwap(q, a, b);
    }
  }

  lemma KindIsKept(q: Quote, op: UserOp)
    requires BodyOf(q, op).Ok?
    ensures var body := BodyOf(q, op).value;
      && (op.Create? <==> body.CreateAccount?) && (op.Pay? <==> body.Payment?) && (op.Swap? <==> body.PathStrictSend?)
      && (op.Claim? <==> body.ClaimClaimable?) && (op.Trust? <==> body.ChangeTrust?)
      && (op.Leave? <==> body.CreateClaimable?)
  {
    hide XdrAsset, XdrAssets, Amount, ParseBalanceId, PathAssets, ClaimableClaimants;
  }

  lemma AssetsRead(q: Quote, op: UserOp)
    requires BodyOf(q, op).Ok? && SdkReadsOp(BodyOf(q, op).value) && (op.Pay? || op.Leave? || op.Trust?)
    ensures XdrAsset(op.asset).Ok? && SdkAsset(XdrAsset(op.asset).value)
  {
    hide XdrAsset, Amount, SdkAsset, ClaimableClaimants;
    assert AssetsOf(BodyOf(q, op).value)[0] == XdrAsset(op.asset).value;
  }

  lemma PairTells(source: AccountId, a: AccountId, b: AccountId)
    requires a != b && source != a && source != b
    ensures Claimants.ClaimantPair(source, a) != Claimants.ClaimantPair(source, b)
  {
    var x := Claimants.ClaimantPair(source, a);
    var y := Claimants.ClaimantPair(source, b);
    assert Claimant(a, Unconditional) in x;
    assert forall i :: 0 <= i < 2 ==> y[i] != Claimant(a, Unconditional);
    hide Claimants.AccountLess;
  }

  lemma SameSwap(q: Quote, a: UserOp, b: UserOp)
    requires a.Swap? && b.Swap? && BodyOf(q, a).Ok? && BodyOf(q, b).Ok?
    requires SdkReadsOp(BodyOf(q, a).value) && SdkReadsOp(BodyOf(q, b).value)
    ensures SameOp(a, b) <==> BodyOf(q, a) == BodyOf(q, b)
  {
    hide SameAmount, SameAssetText, SameRouteText, XdrAsset, XdrAssets, Amount, SdkAsset;
    SwapFields(q, a);
    SwapFields(q, b);
    SwapRead(q, a);
    SwapRead(q, b);
    SameAssetReads(a.sendAsset, b.sendAsset);
    SameAssetReads(a.destAsset, b.destAsset);
    SameAmountReads(a.sendAmount, b.sendAmount);
    SameAmountReads(a.destMin, b.destMin);
    SameRouteReads(a.path, b.path);
  }

  lemma SwapRead(q: Quote, op: UserOp)
    requires op.Swap? && BodyOf(q, op).Ok? && SdkReadsOp(BodyOf(q, op).value)
    ensures XdrAsset(op.sendAsset).Ok? && SdkAsset(XdrAsset(op.sendAsset).value)
    ensures XdrAsset(op.destAsset).Ok? && SdkAsset(XdrAsset(op.destAsset).value)
    ensures XdrAssets(op.path).Ok? && forall i :: 0 <= i < |op.path| ==> SdkAsset(XdrAssets(op.path).value[i])
  {
    hide XdrAsset, XdrAssets, Amount, SdkAsset;
    SwapFields(q, op);
    var body := BodyOf(q, op).value;
    var all := AssetsOf(body);
    assert all == [body.sendAsset, body.destAsset] + body.path;
    assert all[0] == body.sendAsset && all[1] == body.destAsset;
    forall i | 0 <= i < |op.path| ensures SdkAsset(XdrAssets(op.path).value[i]) { assert all[i + 2] == body.path[i]; }
  }

  // ---------- The normal form ----------

  function UnsignBody(body: OpBody): OpBody {
    match body
    case Payment(d, a, n) => Payment(d, a, Unsign(n))
    case PathStrictSend(sa, sn, d, da, dm, path) => PathStrictSend(sa, Unsign(sn), d, da, Unsign(dm), path)
    case PathStrictReceive(sa, sm, d, da, dn, path) => PathStrictReceive(sa, Unsign(sm), d, da, Unsign(dn), path)
    case ChangeTrust(line, limit) => ChangeTrust(line, Unsign(limit))
    case CreateClaimable(a, n, c) => CreateClaimable(a, Unsign(n), c)
    case _ => body
  }

  /**
   * Equality of operation bodies, except where the request leaves a choice (the limit of a trustline
   * for which none was named, the order of a claimable balance's two claimants) and except for the
   * sign of amounts below one unit.
   */
  ghost predicate SameBody(got: OpBody, built: OpBody, op: UserOp) {
    match op
    case Trust(_, None) => got.ChangeTrust? && built.ChangeTrust? && got.line == built.line
    case Leave(_, _, _) =>
      && got.CreateClaimable? && built.CreateClaimable?
      && got.asset == built.asset && Unsign(got.amount) == built.amount
      && multiset(got.claimants) == multiset(built.claimants)
    case _ => UnsignBody(got) == built
  }

  /** The one comparison that minds letter case: ids on the chain are shown in lower case. */
  predicate LowerCaseId(op: UserOp) { op.Claim? ==> op.balanceId == ToLower(op.balanceId) }

  /** Passing the checker is being what the builder writes, id letter case aside. */
  ghost predicate OpAgrees(q: Quote, op: UserOp, want: UserOp, got: OpBody)
    requires BodyOf(q, op).Ok?
  {
    VerifyOp(got, want, q.source) <==> SameBody(got, BodyOf(q, op).value, op) && LowerCaseId(want)
  }

  lemma BodyAgreesCreate(q: Quote, op: UserOp, want: UserOp, got: OpBody)
    requires op.Create? && BodyOf(q, op).Ok? && SameOp(op, want)
    ensures OpAgrees(q, op, want, got)
  {
    if got.CreateAccount? { ShownZero(got.startingBalance); }
  }

  lemma BodyAgreesPay(q: Quote, op: UserOp, want: UserOp, got: OpBody)
    requires op.Pay? && BodyOf(q, op).Ok? && SameOp(op, want)
    ensures OpAgrees(q, op, want, got)
  {
    hide ShowsAmount, SameAmount, SameAsset, SameAssetText, XdrAsset, Amount;
    if got.Payment? {
      ShownAmount(got.amount, op.amount, want.amount);
      ShownAsset(got.asset, op.asset, want.asset);
    }
  }

  lemma SwapFields(q: Quote, op: UserOp)
    requires op.Swap? && BodyOf(q, op).Ok?
    ensures XdrAsset(op.sendAsset).Ok? && Amount(op.sendAmount).Ok? && Account(op.destination).Ok?
    ensures XdrAsset(op.destAsset).Ok? && Amount(op.destMin).Ok? && XdrAssets(op.path).Ok?
    ensures BodyOf(q, op).value
         == PathStrictSend(XdrAsset(op.sendAsset).value, Amount(op.sendAmount).value, Account(op.destination).value,
                           XdrAsset(op.destAsset).value, Amount(op.destMin).value, XdrAssets(op.path).value)
  {
  }

  lemma BodyAgreesSwap(q: Quote, op: UserOp, want: UserOp, got: OpBody)
    requires op.Swap? && BodyOf(q, op).Ok? && SameOp(op, want)
    ensures OpAgrees(q, op, want, got)
  {
    hide ShowsAmount, SameAmount, SameAsset, SameAssetText, SameRoute, SameRouteText, HopsReadable;
    hide XdrAsset, XdrAssets, Amount, PathAssets;
    SwapFields(q, op);
    if got.PathStrictSend? {
      ShownAmount(got.sendAmount, op.sendAmount, want.sendAmount);
      ShownAmount(got.destMin, op.destMin, want.destMin);
      ShownAsset(got.sendAsset, op.sendAsset, want.sendAsset);
      ShownAsset(got.destAsset, op.destAsset, want.destAsset);
      RequestedRoute(got.path, op.path, want.path);
    }
  }

  lemma RequestedRoute(route: seq<Asset>, quoted: seq<AssetText>, requested: seq<AssetText>)
    requires XdrAssets(quoted).Ok? && SameRouteText(quoted, requested)
    ensures SameRoute(route, requested) <==> route == XdrAssets(quoted).value
  {
    ShownRoute(route, quoted, requested);
  }

  lemma BodyAgreesTrust(q: Quote, op: UserOp, want: UserOp, got: OpBody)
    requires op.Trust? && BodyOf(q, op).Ok? && SameOp(op, want)
    ensures OpAgrees(q, op, want, got)
  {
    hide ShowsAmount, SameAmount, SameAsset, SameAssetText, XdrAsset, Amount;
    if got.ChangeTrust? && got.line.AssetLine? {
      ShownAsset(got.line.asset, op.asset, want.asset);
      if op.limit.Some? { ShownAmount(got.limit, op.limit.value, want.limit.value); }
    }
  }

  lemma BodyAgreesLeave(q: Quote, op: UserOp, want: UserOp, got: OpBody)
    requires op.Leave? && BodyOf(q, op).Ok? && SameOp(op, want)
    ensures OpAgrees(q, op, want, got)
  {
    hide ShowsAmount, SameAmount, SameAsset, SameAssetText, XdrAsset, Amount, PairNames;
    if got.CreateClaimable? {
      ShownAmount(got.amount, op.amount, want.amount);
      ShownAsset(got.asset, op.asset, want.asset);
      PairIsUnordered(got.claimants, q.source.id, op.destination.id);
    }
  }

  lemma BodyAgreesClaim(q: Quote, op: UserOp, want: UserOp, got: OpBody)
    requires op.Claim? && BodyOf(q, op).Ok? && SameOp(op, want)
    requires got.ClaimClaimable? ==> |got.balanceId.hash| == 32
    ensures OpAgrees(q, op, want, got)
  {
    var b := BodyOf(q, op).value.balanceId;
    RenderParsed(op.balanceId);
    ParseRendered(b);
    if got.ClaimClaimable? {
      ParseRendered(got.balanceId);
      RenderParsed(RenderBalanceId(got.balanceId));
    }
  }

  /** Balance ids on the chain are 32-byte hashes. */
  predicate WellSized(body: OpBody) { body.ClaimClaimable? ==> |body.balanceId.hash| == 32 }

  lemma BodyAgrees(q: Quote, op: UserOp, want: UserOp, got: OpBody)
    requires BodyOf(q, op).Ok? && SameOp(op, want) && WellSized(got)
    ensures OpAgrees(q, op, want, got)
  {
    match op
    case Create(_) => BodyAgreesCreate(q, op, want, got);
    case Pay(_, _, _) => BodyAgreesPay(q, op, want, got);
    case Swap(_, _, _, _, _, _) => BodyAgreesSwap(q, op, want, got);
    case Trust(_, _) => BodyAgreesTrust(q, op, want, got);
    case Leave(_, _, _) => BodyAgreesLeave(q, op, want, got);
    case Claim(_) => BodyAgreesClaim(q, op, want, got);
  }

  ghost predicate SameUserOp(got: Operation, built: Operation, op: UserOp, user: AccountId) {
    && (got.source == None || got.source == Some(user))
    && SameBody(got.body, built.body, op)
  }

  ghost predicate SameUserOps(got: seq<Operation>, built: seq<Operation>, first: nat, ops: seq<UserOp>, user: AccountId)
    requires first + |ops| <= |got| && first + |ops| <= |built|
  {
    forall i :: 0 <= i < |ops| ==> SameUserOp(got[first + i], built[first + i], ops[i], user)
  }

  ghost predicate SameEdges(tx: Transaction, built: Transaction, n: nat)
    requires |tx.ops| == |built.ops| && n + 2 < |tx.ops|
  {
    && tx.ops[0].body == built.ops[0].body
    && EffectiveSource(tx.ops[0], tx.source) == EffectiveSource(built.ops[0], built.source)
    && tx.ops[n + 1] == built.ops[n + 1]
  }

  /**
   * A transaction that differs from the built one only where the normal form allows. Fee, time bounds
   * and memo are not compared: the checker does not look at them.
   */
  ghost predicate SameUpToNormalForm(tx: Transaction, built: Transaction, q: Quote)
    requires HasShape(q, built) && q.source.Strkey?
  {
    && tx.source == built.source && tx.sequence == built.sequence
    && |tx.ops| == |built.ops|
    && (q.Sandwiched() ==> SameEdges(tx, built, |q.ops|))
    && SameFee(tx.ops[|tx.ops| - 1], built.ops[|built.ops| - 1])
    && SameUserOps(tx.ops, built.ops, q.First(), q.ops, q.source.id)
  }

  predicate AllWellSized(tx: Transaction) { forall i :: 0 <= i < |tx.ops| ==> WellSized(tx.ops[i].body) }

  lemma OwnRoute(route: seq<Asset>, path: seq<AssetText>)
    requires XdrAssets(path).Ok?
    ensures SameRoute(route, path) <==> route == XdrAssets(path).value && HopsReadable(path)
  {
    forall i | 0 <= i < |path| && AssetOf(path[i]).Some?
      ensures SameAssetText(path[i], path[i]) {}
    ShownRoute(route, path, path);
  }

  /** The fee operation, field by field. */
  lemma FeeFields(q: Quote)
    requires FeeOp(q).Ok?
    ensures XdrAsset(q.feeToken).Ok? && XdrAssets(q.path).Ok? && UserSource(q).Ok? && Account(q.sponsor).Ok?
    ensures FeeOp(q).value == Operation(UserSource(q).value,
      PathStrictReceive(XdrAsset(q.feeToken).value, q.sendMaxStroops, Account(q.sponsor).value,
                        Native, q.chargeStroops, XdrAssets(q.path).value))
  {
  }

  lemma FeeTokenShown(a: Asset, token: AssetText)
    requires XdrAsset(token).Ok? && AssetOf(token).Some?
    ensures SameAsset(a, token) <==> a == XdrAsset(token).value
  {
    ShownAsset(a, token, token);
  }

  ghost predicate SameFee(got: Operation, built: Operation) {
    got.source == built.source && UnsignBody(got.body) == UnsignBody(built.body)
  }

  lemma FeeAgrees(q: Quote, op: Operation)
    requires FeeOp(q).Ok? && AssetOf(q.feeToken).Some?
    ensures PaysFee(op, q) <==> SameFee(op, FeeOp(q).value) && HopsReadable(q.path)
  {
    hide ShowsAmount, SameAsset, SameRoute, HopsReadable, XdrAsset, XdrAssets, FormatStroops;
    FeeFields(q);
    if op.body.PathStrictReceive? {
      var body, built := op.body, FeeOp(q).value.body;
      ShownRendered(body.destAmount, q.chargeStroops);
      ShownRendered(body.sendMax, q.sendMaxStroops);
      FeeTokenShown(body.sendAsset, q.feeToken);
      assert SourceIs(op.source, if q.mode.Bootstrap? then Some(q.source) else None)
        <==> op.source == FeeOp(q).value.source;
      OwnRoute(body.path, q.path);
    }
  }

  lemma EdgesAgree(q: Quote, built: Transaction, tx: Transaction)
    requires HasShape(q, built) && |tx.ops| == |built.ops| && q.Sandwiched() && tx.source == built.source
    ensures OpensSandwich(tx.ops[0], tx.source, q) && ClosesSandwich(tx.ops[|q.ops| + 1], q)
       <==> SameEdges(tx, built, |q.ops|)
  {
  }

  predicate LowerCaseIds(ops: seq<UserOp>) { forall i :: 0 <= i < |ops| ==> LowerCaseId(ops[i]) }

  lemma UserOpAgrees(q: Quote, op: UserOp, want: UserOp, got: Operation, built: Operation)
    requires UserSource(q).Ok? && UserOperation(q, UserSource(q).value, op) == Ok(built) && q.source.Strkey?
    requires SameOp(op, want) && WellSized(got.body)
    ensures UserOpMatches(got, want, q.source) <==> SameUserOp(got, built, op, q.source.id) && LowerCaseId(want)
  {
    BodyAgrees(q, op, want, got.body);
  }

  lemma UserOpsAgree(q: Quote, r: Request, built: Transaction, tx: Transaction)
    requires HasShape(q, built) && |tx.ops| == |built.ops| && AllWellSized(tx) && q.source.Strkey?
    requires |q.ops| == |r.ops| && forall i :: 0 <= i < |q.ops| ==> SameOp(q.ops[i], r.ops[i])
    ensures BodyMatches(tx.ops, q.First(), r.ops, q.source)
       <==> SameUserOps(tx.ops, built.ops, q.First(), q.ops, q.source.id) && LowerCaseIds(r.ops)
  {
    hide UserOpMatches, SameUserOp, SameOp, UserOperation, BeginOp, EndOp, FeeOp, LowerCaseId;
    var s := q.First();
    forall i | 0 <= i < |q.ops|
      ensures UserOpMatches(tx.ops[s + i], r.ops[i], q.source)
         <==> SameUserOp(tx.ops[s + i], built.ops[s + i], q.ops[i], q.source.id) && LowerCaseId(r.ops[i])
    {
      UserOpAgrees(q, q.ops[i], r.ops[i], tx.ops[s + i], built.ops[s + i]);
    }
    if BodyMatches(tx.ops, s, r.ops, q.source) {
      forall i | 0 <= i < |q.ops|
        ensures SameUserOp(tx.ops[s + i], built.ops[s + i], q.ops[i], q.source.id) && LowerCaseId(r.ops[i])
      {
        assert UserOpMatches(tx.ops[s + i], r.ops[i], q.source);
      }
    }
    if SameUserOps(tx.ops, built.ops, s, q.ops, q.source.id) && LowerCaseIds(r.ops) {
      forall i | 0 <= i < |r.ops| ensures UserOpMatches(tx.ops[s + i], r.ops[i], q.source) {
        assert SameUserOp(tx.ops[s + i], built.ops[s + i], q.ops[i], q.source.id);
        assert LowerCaseId(r.ops[i]);
      }
    }
  }

  lemma MatchesAgrees(q: Quote, r: Request, built: Transaction, tx: Transaction)
    requires HasShape(q, built) && q.source.Strkey? && AllWellSized(tx) && |tx.ops| == |built.ops|
    requires |q.ops| == |r.ops| && forall i :: 0 <= i < |q.ops| ==> SameOp(q.ops[i], r.ops[i])
    requires AssetOf(q.feeToken).Some?
    requires tx.source == built.source
    ensures Matches(tx, q, r.ops)
       <==> && (q.Sandwiched() ==> SameEdges(tx, built, |q.ops|))
            && SameFee(tx.ops[|tx.ops| - 1], built.ops[|built.ops| - 1])
            && SameUserOps(tx.ops, built.ops, q.First(), q.ops, q.source.id)
            && LowerCaseIds(r.ops) && HopsReadable(q.path)
  {
    hide PaysFee, SameFee, BodyMatches, SameUserOps, LowerCaseIds, HopsReadable, SameEdges;
    hide OpensSandwich, ClosesSandwich;
    hide FeeOp, BeginOp, EndOp, UserOperation, SameOp;
    FeeAgrees(q, tx.ops[|tx.ops| - 1]);
    UserOpsAgree(q, r, built, tx);
    if q.Sandwiched() { EdgesAgree(q, built, tx); }
  }

  /** Anything the service builds names a real user. */
  lemma BuiltNamesUser(q: Quote)
    requires Built(q).Ok?
    ensures q.source.Strkey? && HasShape(q, Built(q).value)
    ensures Strkey(Built(q).value.source) == q.TxSource() && Built(q).value.sequence == q.sequence
  {
    BuiltHasShape(q);
  }

  /**
   * Printer and parser meet. For a payload that answers the request and that the service can build,
   * an arbitrary transaction is handed back for signing exactly when it is the built one up to the
   * normal form, the request writes its balance ids in lower case, and the SDK can read the fee's hops.
   */
  lemma VerifierCharacterised(tx: Transaction, signatures: seq<Signature>, q: Quote, r: Request, e: Expectations)
    requires Built(q).Ok? && QuoteAnswers(q, r, e) && AllWellSized(tx)
    ensures Accepts(Plain(TxEnvelope(tx, signatures)), q, r, e)
       <==> IsBuiltUpToNormalForm(tx, q) && SdkReads(tx) && LowerCaseIds(r.ops) && HopsReadable(q.path)
  {
    BuiltNamesUser(q);
    hide PaysFee, SameFee, BodyMatches, SameUserOps, SameOp, LowerCaseIds, HopsReadable, SameEdges, SdkReads;
    hide OpensSandwich, ClosesSandwich, Built, FeeOp, BeginOp, EndOp, UserOperation, AssetOf;
    var built := Built(q).value;
    if |tx.ops| == |built.ops| && tx.source == built.source { MatchesAgrees(q, r, built, tx); }
    assert Matches(tx, q, r.ops) ==> |tx.ops| == |built.ops|;
    assert Strkey(tx.source) == q.TxSource() <==> tx.source == built.source;
  }

  ghost predicate IsBuiltUpToNormalForm(tx: Transaction, q: Quote)
    requires Built(q).Ok?
  {
    HasShape(q, Built(q).value) && q.source.Strkey? && SameUpToNormalForm(tx, Built(q).value, q)
  }

  /** Whatever payload the service invents, what the user is asked to sign is what that payload builds. */
  lemma VerifierSound(tx: Transaction, signatures: seq<Signature>, q: Quote, r: Request, e: Expectations)
    requires Accepts(Plain(TxEnvelope(tx, signatures)), q, r, e)
    requires Built(q).Ok? && AllWellSized(tx)
    ensures IsBuiltUpToNormalForm(tx, q)
  {
    VerifierCharacterised(tx, signatures, q, r, e);
  }

  // ---------- Completeness ----------

  lemma AmountNonNegative(s: string)
    requires Amount(s).Ok?
    ensures Amount(s).value >= 0
  {
  }

  lemma BuiltBodySigned(q: Quote, op: UserOp)
    requires BodyOf(q, op).Ok?
    ensures UnsignBody(BodyOf(q, op).value) == BodyOf(q, op).value
    ensures WellSized(BodyOf(q, op).value)
  {
    hide XdrAsset, Amount, PathAssets, ClaimableClaimants;
    match op
    case Pay(_, _, amount) => AmountNonNegative(amount);
    case Swap(_, _, sendAmount, _, destMin, _) => AmountNonNegative(sendAmount); AmountNonNegative(destMin);
    case Leave(_, _, amount) => AmountNonNegative(amount);
    case Trust(_, limit) => if limit.Some? { AmountNonNegative(limit.value); }
    case _ =>
  }

  lemma ReadableAsset(quoted: AssetText)
    requires XdrAsset(quoted).Ok? && AssetOf(quoted).Some?
    ensures SdkAsset(XdrAsset(quoted).value)
  {
    XdrAssetReads(quoted);
    ReadableByBoth(quoted);
  }

  lemma ReadableRoute(quoted: seq<AssetText>)
    requires XdrAssets(quoted).Ok? && HopsReadable(quoted)
    ensures forall i :: 0 <= i < |quoted| ==> SdkAsset(XdrAssets(quoted).value[i])
  {
    forall i | 0 <= i < |quoted| ensures SdkAsset(XdrAssets(quoted).value[i]) {
      XdrAssetsAt(quoted, i);
      ReadableAsset(quoted[i]);
    }
  }

  lemma ReadableSwap(sendAsset: AssetText, destAsset: AssetText, path: seq<AssetText>, body: OpBody)
    requires XdrAsset(sendAsset).Ok? && XdrAsset(destAsset).Ok? && XdrAssets(path).Ok?
    requires AssetOf(sendAsset).Some? && AssetOf(destAsset).Some? && HopsReadable(path)
    requires body.PathStrictSend? && body.sendAsset == XdrAsset(sendAsset).value
    requires body.destAsset == XdrAsset(destAsset).value && body.path == XdrAssets(path).value
    ensures SdkReadsOp(body)
  {
    hide XdrAsset, XdrAssets, SdkAsset, AssetOf;
    ReadableAsset(sendAsset);
    ReadableAsset(destAsset);
    ReadableRoute(path);
    ReadablePair(body.sendAsset, body.destAsset, body.path);
  }

  lemma ReadablePair(a: Asset, b: Asset, path: seq<Asset>)
    requires SdkAsset(a) && SdkAsset(b) && forall i :: 0 <= i < |path| ==> SdkAsset(path[i])
    ensures forall k :: 0 <= k < |[a, b] + path| ==> SdkAsset(([a, b] + path)[k])
  {
    hide SdkAsset;
    var all := [a, b] + path;
    assert forall k :: 2 <= k < |all| ==> all[k] == path[k - 2];
  }

  lemma BuiltBodyReadable(q: Quote, op: UserOp, want: UserOp)
    requires BodyOf(q, op).Ok? && SameOp(op, want)
    ensures SdkReadsOp(BodyOf(q, op).value)
  {
    hide XdrAsset, Amount, SdkAsset, AssetOf, SameAmount;
    match op
    case Pay(_, asset, _) => ReadableAsset(asset);
    case Swap(_, sendAsset, _, destAsset, _, path) =>
      SwapFields(q, op);
      ReadableSwap(sendAsset, destAsset, path, BodyOf(q, op).value);
    case Leave(_, asset, _) => ReadableAsset(asset);
    case Trust(asset, _) => ReadableAsset(asset);
    case _ =>
  }

  lemma BuiltFeeReadable(q: Quote)
    requires FeeOp(q).Ok? && AssetOf(q.feeToken).Some? && HopsReadable(q.path)
    ensures SdkReadsOp(FeeOp(q).value.body)
  {
    assert SdkAsset(Native);
    hide XdrAsset, SdkAsset, AssetOf;
    FeeFields(q);
    ReadableAsset(q.feeToken);
    ReadableRoute(q.path);
    ReadablePair(XdrAsset(q.feeToken).value, Native, XdrAssets(q.path).value);
  }

  lemma BuiltUserOp(q: Quote, r: Request, i: nat)
    requires Built(q).Ok? && HasShape(q, Built(q).value) && q.source.Strkey? && i < |q.ops| == |r.ops|
    requires SameOp(q.ops[i], r.ops[i])
    ensures var op := Built(q).value.ops[q.First() + i];
      SameUserOp(op, op, q.ops[i], q.source.id) && WellSized(op.body) && SdkReadsOp(op.body)
  {
    hide SameOp, SdkReadsOp, BodyOf, Built;
    assert UserOperation(q, UserSource(q).value, q.ops[i]) == Ok(Built(q).value.ops[q.First() + i]);
    BuiltBodySigned(q, q.ops[i]);
    BuiltBodyReadable(q, q.ops[i], r.ops[i]);
    BodyShape(q, q.ops[i]);
  }

  lemma BodyShape(q: Quote, op: UserOp)
    requires BodyOf(q, op).Ok?
    ensures op.Trust? ==> BodyOf(q, op).value.ChangeTrust?
    ensures op.Leave? ==> BodyOf(q, op).value.CreateClaimable? && BodyOf(q, op).value.amount >= 0
  {
    hide XdrAsset, PathAssets, ClaimableClaimants, Amount;
    if op.Leave? { AmountNonNegative(op.amount); }
  }

  /** The user's operations of a built list, position by position. */
  lemma BodyIsNormal(q: Quote, r: Request)
    requires Built(q).Ok? && HasShape(q, Built(q).value) && q.source.Strkey?
    requires |q.ops| == |r.ops| && forall i :: 0 <= i < |q.ops| ==> SameOp(q.ops[i], r.ops[i])
    ensures var ops := Built(q).value.ops;
      && SameUserOps(ops, ops, q.First(), q.ops, q.source.id)
      && forall i :: q.First() <= i < q.First() + |q.ops| ==> WellSized(ops[i].body) && SdkReadsOp(ops[i].body)
  {
    hide SameOp, SameUserOp, WellSized, SdkReadsOp, Built, UserOperation, BeginOp, EndOp, FeeOp;
    var ops := Built(q).value.ops;
    forall i | 0 <= i < |q.ops|
      ensures SameUserOp(ops[q.First() + i], ops[q.First() + i], q.ops[i], q.source.id)
    {
      BuiltUserOp(q, r, i);
    }
    forall i | q.First() <= i < q.First() + |q.ops| ensures WellSized(ops[i].body) && SdkReadsOp(ops[i].body) {
      BuiltUserOp(q, r, i - q.First());
    }
  }

  /** The operations around them. */
  lemma FrameIsNormal(q: Quote)
    requires Built(q).Ok? && HasShape(q, Built(q).value) && AssetOf(q.feeToken).Some? && HopsReadable(q.path)
    ensures var ops := Built(q).value.ops;
      forall i :: 0 <= i < |ops| && (i < q.First() || i >= q.First() + |q.ops|) ==>
        WellSized(ops[i].body) && SdkReadsOp(ops[i].body)
  {
    hide WellSized, SdkReadsOp, Built, AssetOf, UserOperation, HopsReadable, BeginOp, EndOp, FeeOp;
    BuiltFeeReadable(q);
    FrameReadable(q);
  }

  lemma BuiltIsNormal(q: Quote, r: Request)
    requires Built(q).Ok? && AssetOf(q.feeToken).Some? && HopsReadable(q.path)
    requires |q.ops| == |r.ops| && forall i :: 0 <= i < |q.ops| ==> SameOp(q.ops[i], r.ops[i])
    ensures IsBuiltUpToNormalForm(Built(q).value, q)
    ensures AllWellSized(Built(q).value) && SdkReads(Built(q).value)
  {
    hide SameOp, SameUserOps, WellSized, SdkReadsOp, Built, AssetOf, HopsReadable, UserOperation, BeginOp, EndOp, FeeOp;
    BuiltNamesUser(q);
    BodyIsNormal(q, r);
    FrameIsNormal(q);
  }

  lemma FrameReadable(q: Quote)
    requires FeeOp(q).Ok? && SdkReadsOp(FeeOp(q).value.body)
    ensures WellSized(FeeOp(q).value.body)
    ensures q.Sandwiched() && BeginOp(q).Ok? && EndOp(q).Ok? ==>
      && WellSized(BeginOp(q).value.body) && SdkReadsOp(BeginOp(q).value.body)
      && WellSized(EndOp(q).value.body) && SdkReadsOp(EndOp(q).value.body)
  {
  }

  /**
   * For every quote that answers the request, sponsored or bootstrap, with or without a lane of its
   * own, the service's own transaction is accepted, with two exceptions the caller can check
   * beforehand: a balance id requested in upper case, and a fee hop whose code is not alphanumeric.
   */
  lemma VerifierComplete(q: Quote, r: Request, e: Expectations, signatures: seq<Signature>)
    requires Built(q).Ok? && QuoteAnswers(q, r, e)
    ensures Accepts(Plain(TxEnvelope(Built(q).value, signatures)), q, r, e)
       <==> LowerCaseIds(r.ops) && HopsReadable(q.path)
  {
    if HopsReadable(q.path) {
      BuiltIsNormal(q, r);
      VerifierCharacterised(Built(q).value, signatures, q, r, e);
    } else {
      BuiltNamesUser(q);
      OwnRouteUnreadable(q);
    }
  }

  lemma OwnRouteUnreadable(q: Quote)
    requires Built(q).Ok? && HasShape(q, Built(q).value) && !HopsReadable(q.path) && AssetOf(q.feeToken).Some?
    ensures !PaysFee(Built(q).value.ops[|Built(q).value.ops| - 1], q)
  {
    FeeAgrees(q, FeeOp(q).value);
  }
}
