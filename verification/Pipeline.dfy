// From the handlers to the ledger: what each of submit's checks buys on the ledger it was made against.
module Pipeline {
  import opened Prelude
  import opened Stellar
  import opened Names
  import opened Plans
  import opened Build
  import opened Pricing
  import opened Route
  import opened Claims
  import opened Ledger
  import opened SponsorEffects
  import opened Economy
  import opened Runs
  import opened OpenClaims
  import opened BootstrapFunding
  import opened Service
  import Agreement

  /** A quote of ours went through `Submit`: issued by us, past every check, and signed. */
  ghost predicate WasSent(d: Deal, submitted: Submitted, w: SubmitWorld) {
    && Issued(d.q, d.params, d.cfg) && SaneTerms(d.params, d.cfg)
    && d.q.sponsor == Strkey(d.sponsorKey) && d.q.source != d.q.sponsor
    && w.params.baseFee == d.params.baseFee
    && Passes(w, d.q, submitted, d.inner)
    && Signed(d.sponsorKey, d.lanes, d.q, d.inner, w.params.baseFee) == Ok(d.envelope)
  }

  /** What `Submit` was told is what this ledger holds, at this time. */
  ghost predicate Saw(d: Deal, w: SubmitWorld, l: State, env: Env) {
    && d.sponsorKey in l.accounts && env.baseReserve == d.params.baseReserve
    && w.spendable == Spendable(l, d.sponsorKey, env.baseReserve)
    && l.accounts[d.sponsorKey].subentries <= l.accounts[d.sponsorKey].sponsored
    && Shows(w.claims, l) && ShowsEntries(w.claims, l) && env.closeTime == w.nowSecs
  }

  /** The market charges for the quoted assets what path finding last said it would along them. */
  ghost predicate MarketAsShown(d: Deal, w: SubmitWorld, env: Env, k: nat) {
    forall token, hops, need: nat ::
      XdrAsset(d.q.feeToken) == Ok(token) && XdrAssets(d.q.path) == Ok(hops)
      && AsksFor(w.paths(d.q.chargeStroops), hops, need)
      ==> env.cost(k, token, hops, Native, d.q.chargeStroops) == Some(need)
  }

  lemma SentIsHonest(d: Deal, submitted: Submitted, w: SubmitWorld)
    requires WasSent(d, submitted, w)
    ensures Honest(d)
  {
    hide Issued, SaneTerms, Signed, Claimable, RouteCheck, FloatEnough, Built;
    GateIsExact(submitted, d.q, w.params.latestLedger, d.inner);
  }

  lemma SentIsBuilt(d: Deal)
    requires Honest(d)
    ensures Built(d.q) == Ok(d.inner.tx) && HasShape(d.q, d.inner.tx) && d.q.source.Strkey?
    ensures |d.inner.tx.ops| == |d.q.ops| + 2 * d.q.First() + 1
  {
    hide Issued, SaneTerms, Signed, Built;
    Agreement.BuiltNamesUser(d.q);
  }

  // ---------- Time ----------

  /** A quote given at `nowSecs` can be included for three minutes: by ledgers that close up to then, and no later. */
  lemma InTimeExactly(q: Quote, nowSecs: nat, closeTime: int)
    requires Built(q).Ok? && q.minTime == 0 && q.maxTime == nowSecs + 180
    ensures InTime(Built(q).value, closeTime) <==> 0 <= closeTime <= nowSecs + 180
  {
    hide Built;
    BuiltCarries(q);
  }

  /** After that nobody includes it, whatever was signed. */
  lemma LateIsRejected(d: Deal, nowSecs: nat, l: State, fee: nat, env: Env)
    requires Honest(d) && d.q.minTime == 0 && d.q.maxTime == nowSecs + 180 && env.closeTime > nowSecs + 180
    ensures Apply(l, SubmissionOf(d.envelope), fee, env) == Rejected
  {
    hide Honest, Built, Exec, Authorised, InTime;
    SentIsBuilt(d);
    FeeBounded(d);
    InTimeExactly(d.q, nowSecs, env.closeTime);
  }

  // ---------- Price ----------

  /** A token keeps its name. */
  lemma NameKept(text: AssetText)
    requires ParseAsset(text).Some?
    ensures ParseAsset(NameText(ParseAsset(text).value)) == ParseAsset(text)
  {
  }

  /**
   * What a quote charges, exactly: the least whole number of stroops that holds the base fee for every
   * operation, the sandwich, the fee payment and the bump, plus the reserves, plus the margin on both,
   * and that is not below the floor on top of the reserves.
   */
  lemma ChargedExactly(q: Quote, d: Deployment, req: QuoteRequest, w: QuoteWorld, n: int)
    requires Carries(q, d, req, w) && w.params.InRange() && d.pricing.marginBps < TWO_32
    requires IsI64(d.pricing.minCharge)
    requires d.pricing.minCharge + Units(req.ops) * w.params.baseReserve <= I64_MAX
    ensures var reserves := Units(req.ops) * w.params.baseReserve;
      var fees := w.params.baseFee * (|req.ops| + (if Units(req.ops) > 0 then 2 else 0) + 2);
      n >= q.chargeStroops
      <==> n * 10_000 >= (fees + reserves) * (10_000 + d.pricing.marginBps) && n >= d.pricing.minCharge + reserves
  {
    hide Units, ChargeFor, PlanFor, ClaimsSuffice, TokenAmountForXlm, ApplyBps, NetworkFee;
    ChargeIsLeast(req.ops, !w.account.NoAccount?, w.params, d.pricing, n);
  }

  /** `sendMax` and route of a quote in another asset come from the cheapest way, at a lumen or more. */
  ghost predicate QuotedAlong(q: Quote, ways: seq<Way>, b: nat, bps: nat) {
    var reference := Max(q.chargeStroops, 10_000_000);
    && b < |ways| && Reads(q.path, ways[b].assets)
    && (forall i :: 0 <= i < |ways| ==> Ceil(ways[b].market(reference)) <= Ceil(ways[i].market(reference)))
    && exists amount :: SendMaxFor(q.sendMaxStroops, amount, q.chargeStroops, Ceil(ways[b].market(reference)), bps)
  }

  /** What `sendMax` can come to over these ways fits the 64 bits it is kept in. */
  ghost predicate Fits(ways: seq<Way>, charge: int, bps: nat) {
    forall i :: 0 <= i < |ways| ==>
      var cost := Ceil(ways[i].market(Max(charge, 10_000_000)));
      cost <= I64_MAX && cost * (10_000 + bps) <= I64_MAX * 10_000
  }

  /**
   * From one handler to the other: a quote was priced over some ways, and when the user comes back they
   * are as they were. Then it carries the price of the cheapest, and the route check lets it through.
   */
  lemma QuoteStaysGood(q: Quote, d: Deployment, req: QuoteRequest, w: QuoteWorld, ways: seq<Way>, later: SubmitWorld)
    requires Carries(q, d, req, w) && q.chargeStroops > 0
    requires Sound(ways) && Fits(ways, q.chargeStroops, d.slippage(ParseAsset(req.feeToken).value))
    requires forall n :: w.paths(n) == Answer(ways, n) && later.paths(n) == Answer(ways, n)
    ensures RouteCheck(later, q).Ok?
    ensures ParseAsset(req.feeToken).value.NamedCredit? ==>
              exists b: nat :: QuotedAlong(q, ways, b, d.slippage(ParseAsset(req.feeToken).value))
  {
    hide Sound, Price, Answer, ChargeFor, ClaimsSuffice, EnsureQuotedPath, PlanFor, Ceil, ParseAsset, SendMaxFor;
    hide PathTexts, Reads, NameText;
    var token := ParseAsset(req.feeToken).value;
    var bps, plan := d.slippage(token), PlanFor(req.ops, !w.account.NoAccount?).value;
    NameKept(req.feeToken);
    var c := CostOf(d, req, w).value;
    PriceCharges(plan, token, w.paths(ReferenceFor(ChargeFor(plan, w.params, d.pricing))), w.params, d.pricing, bps);
    UnmovedBookPasses(ways, q.feeToken, token, plan, w.params, d.pricing, bps, c);
    if token.NamedCredit? {
      var b := PricedFromMarket(ways, plan, token, w.params, d.pricing, bps, c);
      assert QuotedAlong(q, ways, b, bps);
    }
  }

  lemma PriceCharges(plan: Plan, token: NamedAsset, records: seq<PathRecord>, params: NetworkParams, cfg: Config,
                     bps: nat)
    ensures var r := Price(plan, token, records, params, cfg, bps);
      r.Ok? ==> r.value.charge == ChargeFor(plan, params, cfg)
  {
  }

  // ---------- The sponsor ----------

  /** Applied it does not cost the sponsor; failed it costs the fee. */
  lemma SentPaysForItself(d: Deal, submitted: Submitted, w: SubmitWorld, l: State, fee: nat, env: Env)
    requires WasSent(d, submitted, w) && d.sponsorKey in l.accounts && env.baseReserve == d.params.baseReserve
    ensures match Apply(l, SubmissionOf(d.envelope), fee, env)
            case Succeeded(done) =>
              d.sponsorKey in done.accounts
              && Spendable(done, d.sponsorKey, env.baseReserve) >= Spendable(l, d.sponsorKey, env.baseReserve)
            case Failed(done) =>
              d.sponsorKey in done.accounts
              && Spendable(done, d.sponsorKey, env.baseReserve) == Spendable(l, d.sponsorKey, env.baseReserve) - fee
            case Rejected => true
  {
    hide WasSent, Honest, Spendable, Apply, SubmissionOf;
    SentIsHonest(d, submitted, w);
    var r := Apply(l, SubmissionOf(d.envelope), fee, env);
    if r.Succeeded? { AppliedNeverCosts(d, l, fee, env); }
    if r.Failed? { FailedSpendable(d, l, fee, env); }
  }

  lemma SentPassedFloat(d: Deal, submitted: Submitted, w: SubmitWorld, l: State, env: Env)
    requires WasSent(d, submitted, w) && Saw(d, w, l, env)
    ensures d.sponsorKey in l.accounts && env.baseReserve == d.params.baseReserve
    ensures FloatCheck(Spendable(l, d.sponsorKey, env.baseReserve), d.q, |d.inner.tx.ops|, d.params.baseFee)
  {
    hide Issued, SaneTerms, Signed, Claimable, RouteCheck, CheckSignedInner, FloatCheck, Shows, ShowsEntries, Spendable;
  }

  /** The float check: no operation stops because of the sponsor, and none takes it below its minimum. */
  lemma SponsorHolds(d: Deal, submitted: Submitted, w: SubmitWorld, l: State, fee: nat, env: Env, i: nat)
    requires WasSent(d, submitted, w) && Saw(d, w, l, env)
    requires d.inner.tx.source in l.accounts && fee <= SubmissionOf(d.envelope).feeBid && i <= |d.inner.tx.ops|
    ensures SubmissionOf(d.envelope).tx == d.inner.tx && SubmissionOf(d.envelope).feePayer == d.sponsorKey
    ensures match Exec(Charge(l, SubmissionOf(d.envelope), fee), d.inner.tx.ops[..i], d.inner.tx.source, env)
            case Ok(m) => d.sponsorKey in m.accounts && Headroom(m, d.sponsorKey, env.baseReserve) >= 0
            case Err(f) => !Blames(f, d.sponsorKey)
  {
    hide WasSent, Honest, Shows, ShowsEntries, FloatCheck, SubmissionOf, Charge, Exec, Spendable, Headroom;
    SentIsHonest(d, submitted, w);
    SentPassedFloat(d, submitted, w, l, env);
    FloatProtects(d, l, fee, env, i);
  }

  // ---------- The claims ----------

  lemma SentPassedClaims(d: Deal, submitted: Submitted, w: SubmitWorld)
    requires WasSent(d, submitted, w)
    ensures ClaimsSuffice(w.claims, d.q.source, d.q.ops, d.q.mode, w.nowSecs,
                          NeedFor(d.q.mode, d.q.feeToken, d.q.sendMaxStroops))
    ensures PlanFor(d.q.ops, d.q.mode.Sponsored?).Ok?
  {
    hide SaneTerms, Signed, RouteCheck, CheckSignedInner, FloatEnough, ClaimsSuffice, PlanFor, ChargeFor;
  }

  /** Taking the fee leaves every claimable balance where it is. */
  lemma StillShown(horizon: Horizon, l: State, s: Submission, fee: nat)
    requires Shows(horizon, l) && ShowsEntries(horizon, l)
    requires s.tx.source in l.accounts && s.feePayer in l.accounts
    ensures Charge(l, s, fee).claimables == l.claimables && Charge(l, s, fee).lines == l.lines
    ensures Shows(horizon, Charge(l, s, fee)) && ShowsEntries(horizon, Charge(l, s, fee))
  {
    hide ShowsEntry, ParseBalanceId;
  }

  /** The claim check: no claim fails, unless two have one id. */
  lemma ClaimsHold(d: Deal, submitted: Submitted, w: SubmitWorld, l: State, paid: State, env: Env, i: nat)
    requires WasSent(d, submitted, w) && Shows(w.claims, paid) && ShowsEntries(w.claims, paid)
    requires env.closeTime == w.nowSecs && FreshIds(d.inner.tx.ops, env, paid) && DistinctIds(d.q.ops)
    requires i <= |d.inner.tx.ops|
    ensures var r := Exec(paid, d.inner.tx.ops[..i], d.inner.tx.source, env); r.Err? ==> !ClaimFault(r.error)
  {
    hide WasSent, Honest, Shows, ShowsEntries, Exec, FreshIds, DistinctIds, HasShape, ClaimOpen, Built;
    hide SomeClaim, SomeNeeded, Arriving;
    SentIsHonest(d, submitted, w);
    SentIsBuilt(d);
    SentPassedClaims(d, submitted, w);
    var need := NeedFor(d.q.mode, d.q.feeToken, d.q.sendMaxStroops);
    DistinctClaimsNeverStop(paid, w.claims, d.q, d.inner.tx, i, need, env);
  }

  /** And a new account holds what the fee can take when the fee is due. */
  lemma PayerHolds(d: Deal, submitted: Submitted, w: SubmitWorld, paid: State, env: Env, asset: Asset)
    requires WasSent(d, submitted, w) && Shows(w.claims, paid) && PaysFromClaims(d, paid, asset)
    ensures var r := Exec(paid, d.inner.tx.ops[..|d.inner.tx.ops| - 1], d.inner.tx.source, env);
      r.Ok? ==> BalanceOf(r.value, d.q.source.id, asset) >= d.q.sendMaxStroops
  {
    hide WasSent, Honest, Shows, Exec, HasShape, ClaimsSuffice, Built, PlanFor, CheckOp, BalanceOf, Canonical;
    SentIsHonest(d, submitted, w);
    SentIsBuilt(d);
    SentPassedClaims(d, submitted, w);
    PlannedExactlyWhen(d.q.ops, false);
    var i :| 0 <= i < |d.q.ops| && d.q.ops[i].Claim?;
    if Exec(paid, d.inner.tx.ops[..|d.inner.tx.ops| - 1], d.inner.tx.source, env).Ok? {
      NewAccountCanPay(paid, w.claims, d.q, d.inner.tx, asset, w.nowSecs, env);
    }
  }

  // ---------- The route ----------

  /** The two failures that are about the route of the fee payment. */
  predicate RouteFault(f: Failure) { f == NoRoute || f == OverSendMax }

  lemma SentPassedRoute(d: Deal, submitted: Submitted, w: SubmitWorld)
    requires WasSent(d, submitted, w)
    ensures EnsureQuotedPath(w.paths(d.q.chargeStroops), d.q.feeToken, d.q.chargeStroops, d.q.sendMaxStroops,
                             d.q.path).Ok?
  {
    hide Issued, SaneTerms, Signed, Claimable, CheckSignedInner, FloatEnough, EnsureQuotedPath;
  }

  lemma CreditToken(s: AssetText)
    requires XdrAsset(s).Ok? && s != NativeText
    ensures XdrAsset(s).value.Credit? && ParseAsset(s).Some? && ParseAsset(s).value.NamedCredit?
  {
  }

  /** What the builder puts into the fee operation is what the route check reads. */
  lemma PathReads(path: seq<AssetText>)
    requires XdrAssets(path).Ok?
    ensures Reads(path, XdrAssets(path).value)
  {
    hide XdrAsset, ReadAsset;
    forall i | 0 <= i < |path| ensures ReadAsset(path[i]) == Some(XdrAssets(path).value[i]) {
      Agreement.XdrAssetsAt(path, i);
      Agreement.XdrAssetReads(path[i]);
    }
  }

  lemma AskedIsNatural(records: seq<PathRecord>, assets: seq<Asset>, need: int)
    requires AsksFor(records, assets, need)
    ensures need >= 0
  {
    hide Along;
  }

  /** A market as it was shown sells the charge inside `sendMax`. */
  lemma ShownCost(d: Deal, submitted: Submitted, w: SubmitWorld, env: Env, k: nat) returns (need: nat)
    requires WasSent(d, submitted, w) && MarketAsShown(d, w, env, k)
    requires d.q.feeToken != NativeText && FeeOp(d.q).Ok? && d.q.chargeStroops > 0
    ensures XdrAsset(d.q.feeToken).Ok? && XdrAssets(d.q.path).Ok? && XdrAsset(d.q.feeToken).value.Credit?
    ensures var token, hops := XdrAsset(d.q.feeToken).value, XdrAssets(d.q.path).value;
      env.cost(k, token, hops, Native, d.q.chargeStroops) == Some(need)
    ensures need <= d.q.sendMaxStroops
  {
    hide WasSent, FeeOp, XdrAsset, XdrAssets, ParseAsset, AsksFor, EnsureQuotedPath, Reads;
    SentPassedRoute(d, submitted, w);
    Agreement.FeeFields(d.q);
    CreditToken(d.q.feeToken);
    PathReads(d.q.path);
    var records, hops := w.paths(d.q.chargeStroops), XdrAssets(d.q.path).value;
    EnsuredExactly(records, d.q.feeToken, d.q.chargeStroops, d.q.sendMaxStroops, d.q.path, hops);
    var asked :| AsksFor(records, hops, asked) && asked <= d.q.sendMaxStroops;
    AskedIsNatural(records, hops, asked);
    need := asked;
  }

  /** The route check: the fee payment finds its route, inside `sendMax`. */
  lemma RouteHolds(d: Deal, submitted: Submitted, w: SubmitWorld, m: State, src: AccountId, env: Env, k: nat)
    requires WasSent(d, submitted, w) && MarketAsShown(d, w, env, k)
    requires d.q.feeToken != NativeText && FeeOp(d.q).Ok?
    ensures var r := Step(m, FeeOp(d.q).value.body, src, env, k); r.Err? ==> !RouteFault(r.error)
  {
    hide WasSent, MarketAsShown, FeeOp, XdrAsset, XdrAssets, Debit, Deposit;
    Agreement.FeeFields(d.q);
    if d.q.chargeStroops > 0 { var need := ShownCost(d, submitted, w, env, k); }
    MovesHaveNoRoute();
  }

  lemma MovesHaveNoRoute()
    ensures forall l: State, who, asset, n: nat ::
      Deposit(l, who, asset, n).Err? ==> !RouteFault(Deposit(l, who, asset, n).error)
    ensures forall l: State, who, asset, n: nat, base: nat ::
      Debit(l, who, asset, n, base).Err? ==> !RouteFault(Debit(l, who, asset, n, base).error)
  {
  }

  // ---------- Together ----------

  /** The operations before the fee, and the fee, on the state the network fee was taken from. */
  ghost predicate GoesThrough(d: Deal, w: SubmitWorld, paid: State, env: Env) {
    var ops, src := d.inner.tx.ops, d.inner.tx.source;
    forall i :: 0 <= i <= |ops| && Exec(paid, ops[..i], src, env).Err? ==>
      var f := Exec(paid, ops[..i], src, env).error;
      !Blames(f, d.sponsorKey) && (FreshIds(ops, env, paid) && DistinctIds(d.q.ops) ==> !ClaimFault(f))
  }

  /** A new account that only claims, in a fee token it does not issue itself. */
  ghost predicate PaysFromClaims(d: Deal, paid: State, asset: Asset) {
    && d.q.mode.Bootstrap? && OnlyClaims(d.q.ops) && d.q.feeToken == Canonical(asset) && d.inner.tx.ops != []
    && d.q.source.Strkey? && !IssuedBy(asset, d.q.source.id) && BalanceOf(paid, d.q.source.id, asset) >= 0
  }

  /** What the new account holds of the fee token when the fee is due. */
  ghost predicate PayerReady(d: Deal, paid: State, env: Env) {
    forall asset :: PaysFromClaims(d, paid, asset) ==>
      var r := Exec(paid, d.inner.tx.ops[..|d.inner.tx.ops| - 1], d.inner.tx.source, env);
      r.Ok? ==> BalanceOf(r.value, d.q.source.id, asset) >= d.q.sendMaxStroops
  }

  /**
   * The whole pipeline in one statement. A quote of ours that `Submit` sent, included by the ledger
   * its checks looked at: applied, it does not cost the sponsor, and failed, it costs the fee; no
   * operation fails because of the sponsor; no claim fails, ids being distinct; a new account holds
   * `sendMax` of the fee token when the fee is due; and if the market still charges what path finding
   * said, the fee payment does not fail on its route.
   */
  lemma WhatTheChecksBuy(d: Deal, submitted: Submitted, w: SubmitWorld, l: State, fee: nat, env: Env)
    requires WasSent(d, submitted, w) && Saw(d, w, l, env)
    requires !Apply(l, SubmissionOf(d.envelope), fee, env).Rejected?
    ensures var after := Apply(l, SubmissionOf(d.envelope), fee, env).after;
      && d.sponsorKey in after.accounts
      && Spendable(after, d.sponsorKey, env.baseReserve)
         >= Spendable(l, d.sponsorKey, env.baseReserve)
            - if Apply(l, SubmissionOf(d.envelope), fee, env).Failed? then fee else 0
    ensures SubmissionOf(d.envelope).tx.source in l.accounts && SubmissionOf(d.envelope).feePayer in l.accounts
    ensures var paid := Charge(l, SubmissionOf(d.envelope), fee);
      && GoesThrough(d, w, paid, env) && PayerReady(d, paid, env)
      && (d.q.feeToken != NativeText && FeeOp(d.q).Ok? ==>
            forall m, src, k :: MarketAsShown(d, w, env, k) ==>
              var r := Step(m, FeeOp(d.q).value.body, src, env, k); r.Err? ==> !RouteFault(r.error))
  {
    hide WasSent, Honest, Shows, ShowsEntries, Apply, SubmissionOf, Charge, Exec, Spendable, Step, MarketAsShown, FeeOp;
    hide FreshIds, DistinctIds, OnlyClaims, BalanceOf, Canonical, HasShape, Built, ClaimFault, Blames, Headroom;
    SentIsHonest(d, submitted, w);
    SentPaysForItself(d, submitted, w, l, fee, env);
    FeeBounded(d);
    IncludedHas(l, SubmissionOf(d.envelope), fee, env);
    var paid := Charge(l, SubmissionOf(d.envelope), fee);
    StillShown(w.claims, l, SubmissionOf(d.envelope), fee);
    forall i | 0 <= i <= |d.inner.tx.ops| && Exec(paid, d.inner.tx.ops[..i], d.inner.tx.source, env).Err?
      ensures var f := Exec(paid, d.inner.tx.ops[..i], d.inner.tx.source, env).error;
        !Blames(f, d.sponsorKey) && (FreshIds(d.inner.tx.ops, env, paid) && DistinctIds(d.q.ops) ==> !ClaimFault(f))
    {
      SponsorHolds(d, submitted, w, l, fee, env, i);
      if FreshIds(d.inner.tx.ops, env, paid) && DistinctIds(d.q.ops) { ClaimsHold(d, submitted, w, l, paid, env, i); }
    }
    forall asset | PaysFromClaims(d, paid, asset)
      ensures var r := Exec(paid, d.inner.tx.ops[..|d.inner.tx.ops| - 1], d.inner.tx.source, env);
        r.Ok? ==> BalanceOf(r.value, d.q.source.id, asset) >= d.q.sendMaxStroops
    {
      PayerHolds(d, submitted, w, paid, env, asset);
    }
    if d.q.feeToken != NativeText && FeeOp(d.q).Ok? {
      forall m, src, k | MarketAsShown(d, w, env, k)
        ensures var r := Step(m, FeeOp(d.q).value.body, src, env, k); r.Err? ==> !RouteFault(r.error)
      {
        RouteHolds(d, submitted, w, m, src, env, k);
      }
    }
  }

  lemma IncludedHas(l: State, s: Submission, fee: nat, env: Env)
    requires !Apply(l, s, fee, env).Rejected?
    ensures s.tx.source in l.accounts && s.feePayer in l.accounts && fee <= s.feeBid
  {
  }
}
