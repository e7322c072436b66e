// The two handlers: what has to hold before a quote is sealed, and before anything is signed.
module Service {
  import opened Prelude
  import opened Stellar
  import opened Names
  import opened Plans
  import opened Build
  import opened Pricing
  import opened Route
  import opened Claims
  import opened Signer
  import opened ChannelPools
  import opened Economy
  import Lanes
  import Runs

  const TX_TIMEOUT_SECS: nat := 180

  datatype ApiError =
    | Core(error: Error)
    | TokenNotAllowed
    | NoSequence
    | Pool(pool: ChannelError)
    | SponsorFloat
    | Signing(sign: SignError)
    | HorizonRejected

  /** What Horizon and the clock answer while one quote is made. */
  datatype QuoteWorld = QuoteWorld(
    account: Reading, params: NetworkParams, paths: int -> seq<PathRecord>, claims: Horizon, nowSecs: nat,
    chain: AccountId -> Reading, instant: int)

  datatype QuoteRequest = QuoteRequest(source: Address, feeToken: AssetText, ops: seq<UserOp>)

  datatype Deployment = Deployment(
    network: string, sponsorKey: AccountId, pricing: Config, allowed: NamedAsset -> bool, slippage: NamedAsset -> nat)

  // ---------- The gate in front of the signature ----------

  /** What a client sends back: bytes that may not even decode. */
  datatype Submitted = Undecodable | Decoded(envelope: Envelope)

  /** `check_signed_inner`: rebuild from the quote and demand the very same transaction, signed. */
  function CheckSignedInner(submitted: Submitted, q: Quote, currentLedger: nat): Result<TxEnvelope, Error> {
    if currentLedger > q.expiresAtLedger then Err(QuoteExpired(q.expiresAtLedger))
    else if submitted.Undecodable? then Err(Mismatch("xdr"))
    else if submitted.envelope.FeeBump? then Err(Mismatch("expected a v1 transaction envelope"))
    else if submitted.envelope.inner.signatures == [] then Err(Mismatch("transaction is unsigned"))
    else
      var expected :- Built(q);
      if submitted.envelope.inner.tx != expected
      then Err(Mismatch("transaction body differs from the quoted one"))
      else Ok(submitted.envelope.inner)
  }

  /** The gate lets through exactly the quoted transaction, fresh and signed by somebody. */
  lemma GateIsExact(submitted: Submitted, q: Quote, currentLedger: nat, inner: TxEnvelope)
    ensures CheckSignedInner(submitted, q, currentLedger) == Ok(inner)
       <==> && currentLedger <= q.expiresAtLedger && submitted == Decoded(Plain(inner))
            && inner.signatures != [] && Built(q) == Ok(inner.tx)
  {
    hide Built;
  }

  /** A quote that cannot be built fails for what is written in it, and never because of its age or the market. */
  lemma BuiltErrors(q: Quote)
    ensures Built(q).Err? ==> Built(q).error.BadAccount? || Built(q).error.BadAsset? || Built(q).error.BadAmount?
                              || Built(q).error.Unsupported?
  {
    hide ParseAsset, ParseBalanceId, XdrAssets;
    PathErrors(q.path);
    OperationErrors(q, q.ops);
  }

  lemma {:induction false} PathErrors(path: seq<AssetText>)
    ensures XdrAssets(path).Err? ==> XdrAssets(path).error.BadAccount? || XdrAssets(path).error.BadAsset?
  {
    if path == [] {
    } else {
      PathErrors(path[1..]);
    }
  }

  lemma OperationError(q: Quote, op: UserOp)
    ensures BodyOf(q, op).Err? ==>
      var e := BodyOf(q, op).error; e.BadAccount? || e.BadAsset? || e.BadAmount? || e.Unsupported?
  {
    hide ParseAsset, ParseBalanceId, XdrAssets;
    if op.Swap? { PathErrors(op.path); }
  }

  lemma {:induction false} OperationErrors(q: Quote, ops: seq<UserOp>)
    ensures forall us :: UserOperations(q, us, ops).Err? ==>
      var e := UserOperations(q, us, ops).error; e.BadAccount? || e.BadAsset? || e.BadAmount? || e.Unsupported?
  {
    hide BodyOf;
    if ops == [] {
    } else {
      OperationErrors(q, ops[..|ops| - 1]);
      OperationError(q, ops[|ops| - 1]);
    }
  }

  /** Why the gate refuses: an expired quote first; otherwise something the user can still put right. */
  lemma GateErrors(submitted: Submitted, q: Quote, currentLedger: nat)
    ensures var r := CheckSignedInner(submitted, q, currentLedger);
      && (currentLedger > q.expiresAtLedger ==> r == Err(QuoteExpired(q.expiresAtLedger)))
      && (currentLedger <= q.expiresAtLedger && r.Err? ==>
            r.error.Mismatch? || (Built(q).Err? && r.error == Built(q).error))
  {
    hide Built;
  }

  /** `bootstrap_lane_spent`: the quote cannot land, so its lane is only in the way. */
  predicate LaneSpent(e: Error) { e.Unclaimable? || e.QuoteExpired? || e.PathMoved? }

  /** What is known at submit time. */
  datatype SubmitWorld = SubmitWorld(
    params: NetworkParams, paths: int -> seq<PathRecord>, claims: Horizon, nowSecs: nat,
    spendable: int, accepts: Envelope -> bool)

  /** Every operation before the `i`th is no claim, or a claim that can go ahead. */
  predicate OpenBefore(w: SubmitWorld, q: Quote, i: nat) {
    forall j :: 0 <= j < i && j < |q.ops| ==>
      ClaimOpen(w.claims, q.source, q.ops[j], w.nowSecs, NeedFor(q.mode, q.feeToken, q.sendMaxStroops))
  }

  /** Horizon cannot be asked about the first claim that might not go ahead. */
  predicate CannotAsk(w: SubmitWorld, q: Quote) {
    exists i :: 0 <= i < |q.ops| && q.ops[i].Claim? && w.claims(q.ops[i].balanceId).Unavailable? && OpenBefore(w, q, i)
  }

  lemma ClaimableIs(w: SubmitWorld, q: Quote)
    ensures Claimable(w, q) <==> ClaimsSuffice(w.claims, q.source, q.ops, q.mode, w.nowSecs,
                                               NeedFor(q.mode, q.feeToken, q.sendMaxStroops))
    ensures CannotAsk(w, q) <==>
      exists i :: && 0 <= i < |q.ops| && q.ops[i].Claim? && w.claims(q.ops[i].balanceId).Unavailable?
                  && forall j :: 0 <= j < i ==>
                       ClaimOpen(w.claims, q.source, q.ops[j], w.nowSecs,
                                 NeedFor(q.mode, q.feeToken, q.sendMaxStroops))
  {
  }

  predicate Claimable(w: SubmitWorld, q: Quote) {
    ClaimsSuffice(w.claims, q.source, q.ops, q.mode, w.nowSecs, NeedFor(q.mode, q.feeToken, q.sendMaxStroops))
  }

  function RouteCheck(w: SubmitWorld, q: Quote): Result<(), Error> {
    EnsureQuotedPath(w.paths(q.chargeStroops), q.feeToken, q.chargeStroops, q.sendMaxStroops, q.path)
  }

  lemma RouteErrors(w: SubmitWorld, q: Quote)
    ensures RouteCheck(w, q).Err? ==>
      var e := RouteCheck(w, q).error; e.PathMoved? || e.BadAsset? || e.BadAmount?
  {
    hide FirstMatch, SourceStroops, ParseAsset;
  }

  predicate FloatEnough(w: SubmitWorld, q: Quote, inner: TxEnvelope) {
    Runs.FloatCheck(w.spendable, q, |inner.tx.ops|, w.params.baseFee)
  }

  /** Everything that has to hold before the sponsor's key is used. */
  ghost predicate Passes(w: SubmitWorld, q: Quote, submitted: Submitted, inner: TxEnvelope) {
    && Claimable(w, q) && RouteCheck(w, q).Ok?
    && CheckSignedInner(submitted, q, w.params.latestLedger) == Ok(inner)
    && FloatEnough(w, q, inner)
  }

  // ---------- What a quote has to answer ----------

  function PriceOf(d: Deployment, w: QuoteWorld, token: NamedAsset, plan: Plan): Result<Cost, Error> {
    var reference := ReferenceFor(ChargeFor(plan, w.params, d.pricing));
    Price(plan, token, w.paths(reference), w.params, d.pricing, d.slippage(token))
  }

  /** The price of a request in the world it is quoted in. */
  ghost function CostOf(d: Deployment, req: QuoteRequest, w: QuoteWorld): Result<Cost, Error> {
    var token :- ToResult(ParseAsset(req.feeToken), BadAsset(req.feeToken));
    var plan :- PlanFor(req.ops, !w.account.NoAccount?);
    PriceOf(d, w, token, plan)
  }

  /** Whether a request can be quoted, lanes and sequences aside. */
  ghost predicate Quotable(d: Deployment, req: QuoteRequest, w: QuoteWorld) {
    && !w.account.Down? && CostOf(d, req, w).Ok?
    && d.allowed(ParseAsset(req.feeToken).value)
    && var mode := if w.account.NoAccount? then Bootstrap else Sponsored;
       ClaimsSuffice(w.claims, req.source, req.ops, mode, w.nowSecs,
                     NeedFor(mode, NameText(ParseAsset(req.feeToken).value), CostOf(d, req, w).value.sendMax))
  }

  predicate SequenceReady(w: QuoteWorld, lane: Result<(nat, int), ChannelError>) {
    if w.account.NoAccount? then lane.Ok? else w.account.Sequence?
  }

  /** The user's account and its next number if there is one, else the first free lane and its next number. */
  predicate SourcedBy(sequence: int, source: Address, slots: seq<Option<Lanes.Lease>>, ids: seq<AccountId>,
                      req: QuoteRequest, w: QuoteWorld)
    requires |slots| == |ids|
  {
    if !w.account.NoAccount? then source == req.source && w.account == Sequence(sequence - 1)
    else
      var lane := Leased(slots, ids, w.chain, w.instant);
      lane.Ok? && source == Strkey(ids[lane.value.0]) && sequence == lane.value.1
  }

  /** Only a bootstrap quote takes a lane. */
  function SlotsAfterSource(slots: seq<Option<Lanes.Lease>>, ids: seq<AccountId>, w: QuoteWorld)
    : seq<Option<Lanes.Lease>>
    requires |slots| == |ids|
  {
    if w.account.NoAccount? then SlotsAfterLease(slots, ids, w.chain, w.instant, TX_TIMEOUT_SECS) else slots
  }

  /** The quote carries that price, in that token, over that route. */
  ghost predicate Carries(q: Quote, d: Deployment, req: QuoteRequest, w: QuoteWorld) {
    && Quotable(d, req, w)
    && var cost := CostOf(d, req, w).value;
       q.chargeStroops == cost.charge && q.sendMaxStroops == cost.sendMax && q.path == PathTexts(cost.path)
       && q.feeToken == NameText(ParseAsset(req.feeToken).value)
  }

  /** Why a request is turned down before it is priced. */
  lemma Unquotable(d: Deployment, req: QuoteRequest, w: QuoteWorld)
    ensures CostOf(d, req, w).Ok? ==> ParseAsset(req.feeToken).Some? && PlanFor(req.ops, !w.account.NoAccount?).Ok?
    ensures Quotable(d, req, w) ==> && ParseAsset(req.feeToken).Some? && d.allowed(ParseAsset(req.feeToken).value)
                                    && !w.account.Down? && PlanFor(req.ops, !w.account.NoAccount?).Ok?
  {
    hide ParseAsset, PlanFor, Price, ClaimsSuffice;
  }

  /** After that, price and claims decide. */
  lemma QuotableWhen(d: Deployment, req: QuoteRequest, w: QuoteWorld, token: NamedAsset, plan: Plan)
    requires ParseAsset(req.feeToken) == Some(token) && d.allowed(token) && !w.account.Down?
    requires PlanFor(req.ops, !w.account.NoAccount?) == Ok(plan)
    ensures CostOf(d, req, w) == PriceOf(d, w, token, plan)
    ensures plan.ops == req.ops && plan.mode == if w.account.NoAccount? then Bootstrap else Sponsored
    ensures Quotable(d, req, w) <==>
      && PriceOf(d, w, token, plan).Ok?
      && ClaimsSuffice(w.claims, req.source, plan.ops, plan.mode, w.nowSecs,
                       NeedFor(plan.mode, NameText(token), PriceOf(d, w, token, plan).value.sendMax))
  {
    hide ParseAsset, PlanFor, Price, ClaimsSuffice;
    PlanKeeps(req.ops, !w.account.NoAccount?);
  }

  /** A quote filled in from plan and price is issued and carries them. */
  lemma QuoteIsGood(d: Deployment, req: QuoteRequest, w: QuoteWorld, token: NamedAsset, plan: Plan, q: Quote)
    requires Quotable(d, req, w) && ParseAsset(req.feeToken) == Some(token)
    requires PlanFor(req.ops, !w.account.NoAccount?) == Ok(plan) && PriceOf(d, w, token, plan).Ok?
    requires q.ops == req.ops && q.mode == plan.mode && q.feeToken == NameText(token)
    requires var cost := PriceOf(d, w, token, plan).value;
      && q.chargeStroops == cost.charge && q.sendMaxStroops == cost.sendMax && q.path == PathTexts(cost.path)
      && q.reserveStroops == cost.reserve && q.innerFeeStroops == AsU32(AsU32(w.params.baseFee) * plan.OpCount())
    ensures Carries(q, d, req, w) && Issued(q, w.params, d.pricing)
  {
    hide ParseAsset, PlanFor, ClaimsSuffice, ApplyBps, TokenAmountForXlm, ChargeFor, NetworkFee, AsU32, PathTexts;
    PlanKeeps(req.ops, !w.account.NoAccount?);
  }

  /** What was read for the source is what the quote carries, and a lane is held for three minutes. */
  lemma SourceKept(sequence: int, source: Address, slots: seq<Option<Lanes.Lease>>, ids: seq<AccountId>,
                   req: QuoteRequest, w: QuoteWorld)
    requires |slots| == |ids| && SequenceReady(w, Leased(slots, ids, w.chain, w.instant))
    requires if !w.account.NoAccount? then source == req.source && w.account == Sequence(sequence - 1)
             else var (k, n) := Leased(slots, ids, w.chain, w.instant).value; source == Strkey(ids[k]) && sequence == n
    ensures SourcedBy(sequence, source, slots, ids, req, w)
    ensures w.account.NoAccount? ==>
              var k := Leased(slots, ids, w.chain, w.instant).value.0;
              SlotsAfterSource(slots, ids, w) == slots[k := Some(Lanes.Lease(sequence, w.instant + 180))]
  {
    hide FirstFree;
  }

  class Handlers {
    const deployment: Deployment
    const pool: ChannelPool
    var quotes: nat
    var submissions: nat
    var failures: nat

    constructor (deployment: Deployment, pool: ChannelPool)
      ensures this.deployment == deployment && this.pool == pool
      ensures quotes == 0 && submissions == 0 && failures == 0
    {
      this.deployment := deployment;
      this.pool := pool;
      quotes, submissions, failures := 0, 0, 0;
    }

    /** Where a quote's transaction gets its source and sequence: the user's account, or a lane of its own. */
    method Source(mode: Mode, w: QuoteWorld) returns (r: Result<(Option<Address>, int), ApiError>)
      requires pool.Valid() && (mode.Bootstrap? <==> w.account.NoAccount?)
      modifies pool.lanes
      ensures r.Ok? <==> SequenceReady(w, Leased(old(pool.Slots()), pool.Ids(), w.chain, w.instant))
      ensures r.Err? ==> pool.Slots() == old(pool.Slots())
      ensures r.Err? && mode.Sponsored? ==> r.error == NoSequence
      ensures r.Err? && mode.Bootstrap? ==>
                r.error == Pool(Leased(old(pool.Slots()), pool.Ids(), w.chain, w.instant).error)
      ensures r.Ok? && mode.Sponsored? ==> r.value.0.None? && w.account == Sequence(r.value.1 - 1)
      ensures r.Ok? && mode.Bootstrap? ==>
                var (k, sequence) := Leased(old(pool.Slots()), pool.Ids(), w.chain, w.instant).value;
                && (if r.value.0.Some? then r.value.0.value else Strkey(deployment.sponsorKey)) == Strkey(pool.Ids()[k])
                && r.value.1 == sequence
      ensures r.Ok? ==> pool.Slots() == SlotsAfterSource(old(pool.Slots()), pool.Ids(), w)
    {
      hide FirstFree;
      match mode {
        case Sponsored =>
          if !w.account.Sequence? { return Err(NoSequence); }
          return Ok((None, w.account.n + 1));
        case Bootstrap =>
          var leased := pool.Lease(w.chain, w.instant, TX_TIMEOUT_SECS);
          if leased.Err? { return Err(Pool(leased.error)); }
          var channel := if leased.value.0 == deployment.sponsorKey then None else Some(Strkey(leased.value.0));
          return Ok((channel, leased.value.1));
      }
    }

    /** `quote`: a lane is leased last, so a refused quote holds none; a sponsored one never does. */
    method Quote(req: QuoteRequest, w: QuoteWorld) returns (r: Result<Quote, ApiError>)
      requires pool.Valid()
      modifies pool.lanes, this`quotes
      ensures r.Ok? <==> (Quotable(deployment, req, w)
                          && SequenceReady(w, Leased(old(pool.Slots()), pool.Ids(), w.chain, w.instant)))
      ensures r.Err? ==> pool.Slots() == old(pool.Slots()) && quotes == old(quotes)
      // What is wrong first decides what the client is told: the token, Horizon, the plan, the price,
      ensures ParseAsset(req.feeToken).None? ==> r == Err(Core(BadAsset(req.feeToken)))
      ensures ParseAsset(req.feeToken).Some? && !deployment.allowed(ParseAsset(req.feeToken).value) ==>
                r == Err(TokenNotAllowed)
      ensures ParseAsset(req.feeToken).Some? && deployment.allowed(ParseAsset(req.feeToken).value) ==>
                && (w.account.Down? ==> r == Err(Core(HorizonFailed)))
                && var plan := PlanFor(req.ops, !w.account.NoAccount?);
                && (!w.account.Down? && plan.Err? ==> r == Err(Core(plan.error)))
                && (!w.account.Down? && plan.Ok? ==>
                      var cost := PriceOf(deployment, w, ParseAsset(req.feeToken).value, plan.value);
                      cost.Err? ==> r == Err(Core(cost.error)))
      // then the claims, and last the sequence or the lane.
      ensures !Quotable(deployment, req, w) && !w.account.Down? && CostOf(deployment, req, w).Ok?
                && deployment.allowed(ParseAsset(req.feeToken).value) ==>
                r.Err? && r.error.Core? && (r.error.error.Unclaimable? || r.error.error.HorizonFailed?)
      ensures Quotable(deployment, req, w) && r.Err? ==>
                var lane := Leased(old(pool.Slots()), pool.Ids(), w.chain, w.instant);
                if w.account.NoAccount? then lane.Err? && r.error == Pool(lane.error) else r.error == NoSequence
      ensures r.Ok? ==> quotes == old(quotes) + 1
      ensures r.Ok? ==> Issued(r.value, w.params, deployment.pricing)
      ensures r.Ok? ==> && r.value.source == req.source && r.value.ops == req.ops
                        && r.value.sponsor == Strkey(deployment.sponsorKey) && r.value.network == deployment.network
                        && (r.value.mode.Sponsored? <==> !w.account.NoAccount?)
                        && r.value.minTime == 0 && r.value.maxTime == w.nowSecs + 180
                        && r.value.expiresAtLedger == w.params.latestLedger + deployment.pricing.validityLedgers
      ensures r.Ok? ==> && SourcedBy(r.value.sequence, r.value.TxSource(), old(pool.Slots()), pool.Ids(), req, w)
                        && pool.Slots() == SlotsAfterSource(old(pool.Slots()), pool.Ids(), w)
      ensures r.Ok? ==> Carries(r.value, deployment, req, w)
      // The claims it stands on, and how long its lane is held.
      ensures r.Ok? ==> ClaimsSuffice(w.claims, req.source, req.ops, r.value.mode, w.nowSecs,
                                      NeedFor(r.value.mode, r.value.feeToken, r.value.sendMaxStroops))
      ensures r.Ok? && w.account.NoAccount? ==>
                var k := Leased(old(pool.Slots()), pool.Ids(), w.chain, w.instant).value.0;
                pool.Slots() == old(pool.Slots())[k := Some(Lanes.Lease(r.value.sequence, w.instant + 180))]
    {
      hide PlanFor, ClaimsSuffice, ChargeFor, Price, AsU32, FirstFree, Quotable, Carries, Issued;
      hide NeedFor, NameText, PathTexts, ReferenceFor, ParseAsset, SlotsAfterSource, SlotsAfterLease, CostOf, SourcedBy;
      Unquotable(deployment, req, w);
      var parsed := ParseAsset(req.feeToken);
      if parsed.None? { return Err(Core(BadAsset(req.feeToken))); }
      var token := parsed.value;
      if !deployment.allowed(token) { return Err(TokenNotAllowed); }
      if w.account.Down? { return Err(Core(HorizonFailed)); }
      var planned := NewPlan(req.ops, !w.account.NoAccount?);
      if planned.Err? { return Err(Core(planned.error)); }
      var plan := planned.value;
      QuotableWhen(deployment, req, w, token, plan);
      var charge := ChargeFor(plan, w.params, deployment.pricing);
      var priced := Price(plan, token, w.paths(ReferenceFor(charge)), w.params, deployment.pricing,
                          deployment.slippage(token));
      if priced.Err? { return Err(Core(priced.error)); }
      var cost := priced.value;
      var feeToken := NameText(token);
      var claims := EnsureClaims(w.claims, req.source, plan.ops, plan.mode, w.nowSecs,
                                 NeedFor(plan.mode, feeToken, cost.sendMax));
      if claims.Err? { return Err(Core(claims.error)); }
      var sourced := Source(plan.mode, w);
      if sourced.Err? { return Err(sourced.error); }
      var (channel, sequence) := sourced.value;
      quotes := quotes + 1;
      var q := Build.Quote(
        deployment.network, plan.mode, req.source, Strkey(deployment.sponsorKey), channel, req.ops, feeToken,
        cost.charge, cost.sendMax, PathTexts(cost.path), cost.reserve, sequence,
        AsU32(AsU32(w.params.baseFee) * plan.OpCount()), 0, w.nowSecs + TX_TIMEOUT_SECS,
        w.params.latestLedger + deployment.pricing.validityLedgers);
      QuoteIsGood(deployment, req, w, token, plan, q);
      SourceKept(sequence, q.TxSource(), old(pool.Slots()), pool.Ids(), req, w);
      return Ok(q);
    }

    /** `release_bootstrap`. */
    method ReleaseBootstrap(q: Quote)
      requires pool.Valid()
      modifies pool.lanes
      ensures pool.Slots() == SlotsAfterBootstrap(old(pool.Slots()), pool.Ids(), q)
    {
      if q.mode == Bootstrap { pool.Release(q.TxSource(), q.sequence); }
    }

    /**
     * `submit`: the checks in order, then the signature, then the network. An envelope leaves exactly
     * when every check has passed and signing works; the lane is given back exactly when the quote is
     * used up or known to be dead, and kept when the user can still sign again.
     */
    method Submit(q: Quote, submitted: Submitted, w: SubmitWorld)
      returns (sent: Option<Envelope>, r: Result<(), ApiError>)
      requires pool.Valid()
      modifies pool.lanes, this`submissions, this`failures
      ensures sent.Some? ==> (exists inner :: Passes(w, q, submitted, inner) && Signed(
                deployment.sponsorKey, pool.Ids(), q, inner, w.params.baseFee) == Ok(sent.value))
      ensures sent.None? ==> r.Err? && !(exists inner :: Passes(w, q, submitted, inner) && Signed(
                deployment.sponsorKey, pool.Ids(), q, inner, w.params.baseFee).Ok?)
      ensures sent.Some? ==> (r.Ok? <==> w.accepts(sent.value)) && (r.Err? ==> r.error.HorizonRejected?)
      ensures submissions == old(submissions) + (if r.Ok? then 1 else 0)
      ensures failures == old(failures) + (if sent.Some? && r.Err? then 1 else 0)
      // Claims that do not stand use the quote up; not being able to ask does not.
      ensures !Claimable(w, q) ==> sent.None? && r.error.Core?
      ensures !Claimable(w, q) ==> (r.error.error.HorizonFailed? <==> CannotAsk(w, q))
      ensures !Claimable(w, q) && r.error.error.Unclaimable? ==>
                pool.Slots() == SlotsAfterBootstrap(old(pool.Slots()), pool.Ids(), q)
      ensures !Claimable(w, q) && !r.error.error.Unclaimable? ==>
                r.error.error.HorizonFailed? && pool.Slots() == old(pool.Slots())
      // So does a route that has moved; an unreadable one does not.
      ensures Claimable(w, q) && RouteCheck(w, q).Err? ==> r == Err(Core(RouteCheck(w, q).error))
      ensures Claimable(w, q) && RouteCheck(w, q).Err? ==>
                pool.Slots() == if RouteCheck(w, q).error.PathMoved?
                                then SlotsAfterBootstrap(old(pool.Slots()), pool.Ids(), q) else old(pool.Slots())
      // And age. With a fresh quote the user can sign again, so whatever was wrong, its lane is kept.
      ensures Claimable(w, q) && RouteCheck(w, q).Ok? && w.params.latestLedger > q.expiresAtLedger ==>
                && r == Err(Core(QuoteExpired(q.expiresAtLedger)))
                && pool.Slots() == SlotsAfterBootstrap(old(pool.Slots()), pool.Ids(), q)
      ensures Claimable(w, q) && RouteCheck(w, q).Ok? && w.params.latestLedger <= q.expiresAtLedger ==>
                var gate := CheckSignedInner(submitted, q, w.params.latestLedger);
                gate.Err? ==> r == Err(Core(gate.error)) && pool.Slots() == old(pool.Slots())
      // Short of funds the quote is given up; short of signatures it is not; once sent it is used.
      ensures sent.None? && r.error.SponsorFloat? ==>
                pool.Slots() == SlotsAfterBootstrap(old(pool.Slots()), pool.Ids(), q)
      ensures Claimable(w, q) && RouteCheck(w, q).Ok? && CheckSignedInner(submitted, q, w.params.latestLedger).Ok? ==>
                var inner := CheckSignedInner(submitted, q, w.params.latestLedger).value;
                !FloatEnough(w, q, inner) <==> sent.None? && r.error.SponsorFloat?
      ensures Claimable(w, q) && RouteCheck(w, q).Ok? && CheckSignedInner(submitted, q, w.params.latestLedger).Ok? ==>
                (sent.None? && !r.error.SponsorFloat? ==> r.error.Signing? && pool.Slots() == old(pool.Slots()))
      ensures sent.Some? ==> pool.Slots() == SlotsAfterBootstrap(old(pool.Slots()), pool.Ids(), q)
    {
      hide ClaimsSuffice, EnsureQuotedPath, CheckSignedInner, BootstrapSigned, WrapFeeBump;
      hide FloatEnough, SlotsAfterBootstrap, Claimable, CannotAsk, OpenBefore, ClaimOpen, Built;
      BuiltErrors(q);
      GateErrors(submitted, q, w.params.latestLedger);
      RouteErrors(w, q);
      ClaimableIs(w, q);
      var claims := EnsureClaims(w.claims, q.source, q.ops, q.mode, w.nowSecs,
                                 NeedFor(q.mode, q.feeToken, q.sendMaxStroops));
      if claims.Err? {
        if LaneSpent(claims.error) { ReleaseBootstrap(q); }
        return None, Err(Core(claims.error));
      }
      var route := RouteCheck(w, q);
      if route.Err? {
        if LaneSpent(route.error) { ReleaseBootstrap(q); }
        return None, Err(Core(route.error));
      }
      var checked := CheckSignedInner(submitted, q, w.params.latestLedger);
      if checked.Err? {
        if LaneSpent(checked.error) { ReleaseBootstrap(q); }
        return None, Err(Core(checked.error));
      }
      var inner := checked.value;
      if !FloatEnough(w, q, inner) {
        ReleaseBootstrap(q);
        return None, Err(SponsorFloat);
      }
      var signed: Result<Envelope, SignError>;
      match q.mode {
        case Sponsored => signed := WrapFeeBump(deployment.sponsorKey, inner, w.params.baseFee, q.network);
        case Bootstrap => signed := SignBootstrap(deployment.sponsorKey, pool.Ids(), q, inner, w.params.baseFee);
      }
      if signed.Err? { return None, Err(Signing(signed.error)); }
      var envelope := signed.value;
      assert Passes(w, q, submitted, inner);
      if w.accepts(envelope) {
        submissions := submissions + 1;
        r := Ok(());
      } else {
        failures := failures + 1;
        r := Err(HorizonRejected);
      }
      ReleaseBootstrap(q);
      sent := Some(envelope);
    }
  }

  function SlotsAfterBootstrap(slots: seq<Option<Lanes.Lease>>, ids: seq<AccountId>, q: Quote): seq<Option<Lanes.Lease>>
    requires |slots| == |ids|
  {
    if q.mode.Bootstrap? then SlotsAfterRelease(slots, ids, q.TxSource(), q.sequence) else slots
  }

  /** Lane by lane: given back is the first at the quote's source, if the lease there has the quote's number. */
  lemma FreedExactly(slots: seq<Option<Lanes.Lease>>, ids: seq<AccountId>, q: Quote, i: nat)
    requires |slots| == |ids| && i < |ids|
    ensures var after := SlotsAfterBootstrap(slots, ids, q);
      && |after| == |slots|
      && after[i] == if && q.mode.Bootstrap? && Strkey(ids[i]) == q.TxSource()
                        && (forall j :: 0 <= j < i ==> Strkey(ids[j]) != q.TxSource())
                        && slots[i].Some? && slots[i].value.sequence == q.sequence
                     then None else slots[i]
  {
  }

  lemma PlanKeeps(ops: seq<UserOp>, accountExists: bool)
    requires PlanFor(ops, accountExists).Ok?
    ensures PlanFor(ops, accountExists).value.ops == ops
    ensures PlanFor(ops, accountExists).value.mode == if accountExists then Sponsored else Bootstrap
  {
    hide Count, FirstError;
  }
}
