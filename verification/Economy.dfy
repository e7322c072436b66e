// What every quote, once built, signed and applied, does to the sponsor; over one transaction and over runs.
module Economy {
  import opened Prelude
  import opened Stellar
  import opened Names
  import opened Plans
  import opened Build
  import opened Signer
  import opened Pricing
  import opened Ledger
  import opened SponsorEffects

  /** `sponsor_funds`: the balance above two reserves of its own and one per sponsored entry. */
  function Spendable(l: State, sponsor: AccountId, baseReserve: nat): int
    requires sponsor in l.accounts
  {
    l.accounts[sponsor].balance - (2 + l.accounts[sponsor].sponsoring) * baseReserve
  }

  /** The fields of a quote that follow from its plan, as the quote handler fills them in. */
  ghost predicate Issued(q: Quote, params: NetworkParams, cfg: Config) {
    && PlanFor(q.ops, q.mode.Sponsored?).Ok?
    && var plan := PlanFor(q.ops, q.mode.Sponsored?).value;
      && q.reserveStroops == plan.ReserveStroops(params.baseReserve)
      && q.chargeStroops == ChargeFor(plan, params, cfg)
      && q.innerFeeStroops == AsU32(AsU32(params.baseFee) * plan.OpCount())
  }

  predicate SaneTerms(params: NetworkParams, cfg: Config) {
    params.InRange() && params.baseReserve > 0 && cfg.marginBps < TWO_32
  }

  /** What submit puts on the network once its checks have passed. */
  function Signed(sponsorKey: AccountId, lanes: seq<AccountId>, q: Quote, inner: TxEnvelope, baseFee: int)
    : Result<Envelope, SignError>
  {
    match q.mode
    case Sponsored => WrapFeeBump(sponsorKey, inner, baseFee, q.network)
    case Bootstrap => BootstrapSigned(sponsorKey, lanes, q, inner, baseFee)
  }

  /** A quote of ours, what it built, and what was signed for it. */
  datatype Deal = Deal(q: Quote, params: NetworkParams, cfg: Config, sponsorKey: AccountId,
                       lanes: seq<AccountId>, inner: TxEnvelope, envelope: Envelope)

  ghost predicate Honest(d: Deal) {
    && Issued(d.q, d.params, d.cfg) && SaneTerms(d.params, d.cfg)
    && d.q.sponsor == Strkey(d.sponsorKey) && d.q.source != d.q.sponsor
    && Built(d.q) == Ok(d.inner.tx)
    && Signed(d.sponsorKey, d.lanes, d.q, d.inner, d.params.baseFee) == Ok(d.envelope)
  }

  // ---------- Counting ----------

  /** The built list has exactly the operations the plan counted and priced. */
  lemma BuiltLength(q: Quote, params: NetworkParams, cfg: Config)
    requires Issued(q, params, cfg) && params.baseReserve > 0 && Built(q).Ok?
    ensures |Built(q).value.ops| == PlanFor(q.ops, q.mode.Sponsored?).value.OpCount()
  {
    hide Built, FeeOp, BeginOp, EndOp, UserOperation, UserSource, Units, Count, FirstError, ChargeFor;
    BuiltHasShape(q);
    PlanLocksItsUnits(q.ops, q.mode.Sponsored?, params.baseReserve);
  }

  lemma InnerFeeOf(baseFee: int, n: nat)
    requires 0 <= baseFee < TWO_32
    ensures AsU32(AsU32(baseFee) * n) == AsU32(baseFee * n)
  {
  }

  lemma PlanSizes(d: Deal)
    requires Honest(d)
    ensures var n := |d.inner.tx.ops|;
      && n == PlanFor(d.q.ops, d.q.mode.Sponsored?).value.OpCount() && 2 <= n <= 23
      && d.q.reserveStroops == Units(d.q.ops) * d.params.baseReserve
      && d.q.innerFeeStroops == AsU32(d.params.baseFee * n)
      && d.q.chargeStroops >= d.params.baseFee * (n + 1) + d.q.reserveStroops
      && d.q.reserveStroops >= 0
  {
    hide Built, Signed, Units, Count, FirstError, ChargeFor, NetworkFee, AsU32;
    BuiltLength(d.q, d.params, d.cfg);
    ChargeCoversCost(d.q.ops, d.q.mode.Sponsored?, d.params, d.cfg);
    InnerFeeOf(d.params.baseFee, |d.inner.tx.ops|);
    ProductSplit(Units(d.q.ops), 0, d.params.baseReserve);
  }

  lemma {:induction false} OpsUnitsConcat(a: seq<Operation>, b: seq<Operation>)
    ensures OpsUnits(a + b) == OpsUnits(a) + OpsUnits(b)
  {
    if b == [] {
      assert a + b == a;
    } else {
      var b0 := b[..|b| - 1];
      OpsUnitsConcat(a, b0);
      assert (a + b)[..|a + b| - 1] == a + b0;
    }
  }

  lemma BodyUnitsOf(q: Quote, op: UserOp)
    requires BodyOf(q, op).Ok?
    ensures BodyUnits(BodyOf(q, op).value) == UnitsOf(op)
  {
    hide XdrAsset, Amount, PathAssets, Account;
  }

  lemma {:induction false} UserOpsUnits(q: Quote, us: Option<AccountId>, ops: seq<UserOp>)
    requires UserOperations(q, us, ops).Ok?
    ensures OpsUnits(UserOperations(q, us, ops).value) == Units(ops)
  {
    if ops == [] {
    } else {
      var front, last := ops[..|ops| - 1], ops[|ops| - 1];
      UserOpsUnits(q, us, front);
      BodyUnitsOf(q, last);
      var all := UserOperations(q, us, ops).value;
      assert all[..|all| - 1] == UserOperations(q, us, front).value;
      hide BodyOf;
    }
  }

  /** The built list locks exactly the reserves the plan counted, all of them before the fee comes in. */
  lemma BuiltUnits(q: Quote)
    requires Built(q).Ok?
    ensures FeeOp(q).Ok?
    ensures var ops := Built(q).value.ops;
      ops != [] && ops[|ops| - 1] == FeeOp(q).value && OpsUnits(ops[..|ops| - 1]) == Units(q.ops)
      && OpsUnits(ops) == Units(q.ops)
  {
    hide Built, FeeOp, BeginOp, EndOp, UserOperations, Optional, OpsUnits, Units;
    BuiltOps(q);
    var begin, end := Optional(q.Sandwiched(), BeginOp(q)).value, Optional(q.Sandwiched(), EndOp(q)).value;
    var body := UserOperations(q, UserSource(q).value, q.ops).value;
    UserOpsUnits(q, UserSource(q).value, q.ops);
    EdgesHaveNoUnits(q);
    var front := begin + body + end;
    var ops := front + [FeeOp(q).value];
    OpsUnitsConcat(begin + body, end);
    OpsUnitsConcat(begin, body);
    assert ops[..|ops| - 1] == front;
    FeeHasNoUnits(q, ops);
  }

  lemma EdgesHaveNoUnits(q: Quote)
    requires Optional(q.Sandwiched(), BeginOp(q)).Ok? && Optional(q.Sandwiched(), EndOp(q)).Ok?
    ensures OpsUnits(Optional(q.Sandwiched(), BeginOp(q)).value) == 0
    ensures OpsUnits(Optional(q.Sandwiched(), EndOp(q)).value) == 0
  {
    NoUnits(Optional(q.Sandwiched(), BeginOp(q)).value);
    NoUnits(Optional(q.Sandwiched(), EndOp(q)).value);
  }

  lemma NoUnits(ops: seq<Operation>)
    requires |ops| <= 1 && forall i :: 0 <= i < |ops| ==> BodyUnits(ops[i].body) == 0
    ensures OpsUnits(ops) == 0
  {
  }

  lemma FeeHasNoUnits(q: Quote, ops: seq<Operation>)
    requires FeeOp(q).Ok? && ops != [] && ops[|ops| - 1] == FeeOp(q).value
    ensures OpsUnits(ops) == OpsUnits(ops[..|ops| - 1])
  {
    hide XdrAssets, NamedXdrAsset;
  }

  lemma BuiltSparing(q: Quote, sponsor: AccountId)
    requires Built(q).Ok? && q.sponsor == Strkey(sponsor) && q.source != q.sponsor
    ensures SparingOps(Built(q).value.ops, Built(q).value.source, sponsor)
  {
    forall i | 0 <= i < |Built(q).value.ops|
      ensures EffectiveSource(Built(q).value.ops[i], Built(q).value.source) != sponsor
           || Harmless(Built(q).value.ops[i].body)
    {
      Authority(q, i);
    }
  }

  /** The sponsor pays every fee, and never more than one base fee per operation and one. */
  lemma FeeBounded(d: Deal)
    requires Honest(d)
    ensures SubmissionOf(d.envelope).tx == d.inner.tx && SubmissionOf(d.envelope).feePayer == d.sponsorKey
    ensures SubmissionOf(d.envelope).feeBid <= d.params.baseFee * (|d.inner.tx.ops| + 1)
  {
    PlanSizes(d);
    if d.q.mode.Bootstrap? && d.q.TxSource() == d.q.sponsor { PlainBid(d); } else { BumpedBid(d); }
  }

  lemma PlainBid(d: Deal)
    requires Honest(d) && d.q.mode.Bootstrap? && d.q.TxSource() == d.q.sponsor
    requires d.q.innerFeeStroops == AsU32(d.params.baseFee * |d.inner.tx.ops|)
    ensures SubmissionOf(d.envelope) == Submission(d.inner.tx, d.sponsorKey, d.q.innerFeeStroops, d.envelope)
    ensures d.q.innerFeeStroops <= d.params.baseFee * (|d.inner.tx.ops| + 1)
  {
    hide Issued, Built, AsU32;
    BuiltFee(d.q);
    ProductSplit(|d.inner.tx.ops|, 1, d.params.baseFee);
    WrappedAtMost(d.params.baseFee * |d.inner.tx.ops|);
  }

  lemma BumpedBid(d: Deal)
    requires Honest(d) && (d.q.mode.Sponsored? || d.q.TxSource() != d.q.sponsor)
    requires d.q.innerFeeStroops == AsU32(d.params.baseFee * |d.inner.tx.ops|) && 0 < |d.inner.tx.ops| <= 100
    ensures SubmissionOf(d.envelope)
         == Submission(d.inner.tx, d.sponsorKey, d.params.baseFee * (|d.inner.tx.ops| + 1), d.envelope)
  {
    hide Issued, Built, BumpFee, AsU32, Signed;
    BuiltFee(d.q);
    Bumped(d);
    BumpFeeOfQuote(d.params.baseFee, |d.inner.tx.ops|);
  }

  lemma Bumped(d: Deal)
    requires Signed(d.sponsorKey, d.lanes, d.q, d.inner, d.params.baseFee) == Ok(d.envelope)
    requires d.q.mode.Sponsored? || d.q.TxSource() != d.q.sponsor
    ensures d.envelope.FeeBump? && d.envelope.feeSource == d.sponsorKey && d.envelope.inner.tx == d.inner.tx
    ensures BumpFee(d.inner.tx.fee, |d.inner.tx.ops|, d.params.baseFee) == Ok(d.envelope.fee)
  {
    hide BumpFee, LaneKey;
  }

  /** The charge pays the fee that can be taken and the reserves that can be locked. */
  lemma ChargeCoversBid(d: Deal)
    requires Honest(d)
    ensures SubmissionOf(d.envelope).feeBid + d.q.reserveStroops <= d.q.chargeStroops
    ensures d.q.reserveStroops == Units(d.q.ops) * d.params.baseReserve && d.q.reserveStroops >= 0
  {
    hide Honest, SubmissionOf, Units, PlanFor;
    FeeBounded(d);
    PlanSizes(d);
  }

  lemma BuiltFee(q: Quote)
    requires Built(q).Ok?
    ensures Built(q).value.fee == q.innerFeeStroops && Strkey(Built(q).value.source) == q.TxSource()
  {
    BuiltHasShape(q);
  }

  lemma WrappedAtMost(x: nat)
    ensures AsU32(x) <= x
  {
  }

  // ---------- The fee operation ----------

  /**
   * Collection is exact: the sponsor receives precisely the charge, the payer parts with at most
   * `sendMax` of the fee token, and no other balance, line or claimable balance moves.
   */
  lemma FeeStepExact(l: State, q: Quote, user: AccountId, sponsor: AccountId, env: Env, k: nat)
    requires FeeOp(q).Ok? && q.sponsor == Strkey(sponsor) && user != sponsor
    requires Step(l, FeeOp(q).value.body, user, env, k).Ok?
    ensures var l' := Step(l, FeeOp(q).value.body, user, env, k).value;
            var token := FeeOp(q).value.body.sendAsset;
      && sponsor in l.accounts && sponsor in l'.accounts && user in l.accounts && user in l'.accounts
      && l'.accounts[sponsor] == l.accounts[sponsor].(balance := l.accounts[sponsor].balance + q.chargeStroops)
      && 0 <= BalanceOf(l, user, token) - BalanceOf(l', user, token) <= q.sendMaxStroops
      && l'.claimables == l.claimables && l'.sandwiches == l.sandwiches
      && (forall who, asset :: (who, asset) != (sponsor, Native) && (who, asset) != (user, token)
            ==> BalanceOf(l', who, asset) == BalanceOf(l, who, asset))
  {
    hide XdrAssets, NamedXdrAsset, ParseAsset, MinBalance, Ledger.Cost;
    assert FeeOp(q).value.body.PathStrictReceive?;
    assert FeeOp(q).value.body.destination == sponsor && FeeOp(q).value.body.destAsset == Native;
  }

  // ---------- One transaction ----------

  lemma FeePayerIs(q: Quote)
    requires Built(q).Ok?
    ensures Built(q).value.ops != []
    ensures Strkey(EffectiveSource(Built(q).value.ops[|Built(q).value.ops| - 1], Built(q).value.source)) == q.source
  {
    hide XdrAssets, NamedXdrAsset, UserOperation;
    BuiltHasShape(q);
  }

  /** Everything before the fee operation, on the state the fees were taken from. */
  lemma FrontKeeps(d: Deal, l: State, fee: nat, env: Env) returns (paid: State, m: State)
    requires Honest(d) && d.sponsorKey in l.accounts
    requires Apply(l, SubmissionOf(d.envelope), fee, env).Succeeded?
    ensures var s := SubmissionOf(d.envelope);
      && s.tx.ops != [] && s.tx.source in l.accounts && s.feePayer in l.accounts
      && paid == Charge(l, s, fee) && fee <= s.feeBid
      && Kept(paid, m, d.sponsorKey, Units(d.q.ops))
      && FeeOp(d.q).Ok? && d.q.source.Strkey?
      && Step(m, FeeOp(d.q).value.body, d.q.source.id, env, |s.tx.ops| - 1)
         == Ok(Apply(l, s, fee, env).after)
  {
    hide Issued, Built, Signed, SaneTerms, OpsUnits, Units, Step, Kept, PlanFor, Charge, FeeOp, Spares;
    BuiltUnits(d.q);
    BuiltSparing(d.q, d.sponsorKey);
    FeePayerIs(d.q);
    FeeBounded(d);
    var s, sp := SubmissionOf(d.envelope), d.sponsorKey;
    paid := Charge(l, s, fee);
    ChargeShape(l, s, fee, sp);
    var ops := s.tx.ops;
    SparingFront(ops, s.tx.source, sp);
    m := Exec(paid, ops[..|ops| - 1], s.tx.source, env).value;
    FrontSpared(paid, m, ops[..|ops| - 1], s.tx.source, env, sp);
  }

  lemma FrontSpared(l: State, m: State, ops: seq<Operation>, txSource: AccountId, env: Env, sponsor: AccountId)
    requires sponsor in l.accounts && SparingOps(ops, txSource, sponsor) && Exec(l, ops, txSource, env) == Ok(m)
    ensures Kept(l, m, sponsor, OpsUnits(ops))
  {
    hide Exec, OpsUnits, SparingOps;
    ExecSpares(l, ops, txSource, env, sponsor);
  }

  /**
   * Every applied quote leaves the sponsor at least as well off: what it can spend does not fall,
   * because the charge covers the fee it paid and every reserve the operations made it lock.
   */
  lemma AppliedNeverCosts(d: Deal, l: State, fee: nat, env: Env)
    requires Honest(d) && d.sponsorKey in l.accounts && env.baseReserve == d.params.baseReserve
    requires Apply(l, SubmissionOf(d.envelope), fee, env).Succeeded?
    ensures var l' := Apply(l, SubmissionOf(d.envelope), fee, env).after;
      && d.sponsorKey in l'.accounts
      && Spendable(l', d.sponsorKey, env.baseReserve)
         >= Spendable(l, d.sponsorKey, env.baseReserve) + d.q.chargeStroops - d.q.reserveStroops - fee
      && Spendable(l', d.sponsorKey, env.baseReserve) >= Spendable(l, d.sponsorKey, env.baseReserve)
  {
    hide Honest, FeeOp, Units, Step, Charge, Apply, SubmissionOf, Spendable;
    var paid, m := FrontKeeps(d, l, fee, env);
    FeeBounded(d);
    ChargeCoversBid(d);
    Parties(d);
    var s, sp := SubmissionOf(d.envelope), d.sponsorKey;
    var l' := Apply(l, s, fee, env).after;
    ChargeShape(l, s, fee, sp);
    SpendableMoves(l, paid, sp, 0 - fee, env.baseReserve);
    SpendableAfter(paid, m, sp, Units(d.q.ops), env.baseReserve, d.q.reserveStroops);
    FeeStepExact(m, d.q, d.q.source.id, sp, env, |s.tx.ops| - 1);
    SpendableMoves(m, l', sp, d.q.chargeStroops, env.baseReserve);
  }

  lemma Parties(d: Deal)
    requires Honest(d)
    ensures d.q.sponsor == Strkey(d.sponsorKey) && d.q.source != d.q.sponsor
  {
  }

  lemma SpendableMoves(l: State, l': State, sponsor: AccountId, n: int, base: nat)
    requires sponsor in l.accounts && sponsor in l'.accounts
    requires l'.accounts[sponsor].balance == l.accounts[sponsor].balance + n
    requires l'.accounts[sponsor].sponsoring == l.accounts[sponsor].sponsoring
    ensures Spendable(l', sponsor, base) == Spendable(l, sponsor, base) + n
  {
  }

  lemma SparingFront(ops: seq<Operation>, txSource: AccountId, sponsor: AccountId)
    requires ops != [] && SparingOps(ops, txSource, sponsor)
    ensures SparingOps(ops[..|ops| - 1], txSource, sponsor)
  {
  }

  lemma ChargeShape(l: State, s: Submission, fee: nat, who: AccountId)
    requires s.tx.source in l.accounts && s.feePayer in l.accounts && who in l.accounts
    ensures who in Charge(l, s, fee).accounts
    ensures Charge(l, s, fee).accounts[who]
         == l.accounts[who].(balance := l.accounts[who].balance - (if who == s.feePayer then fee else 0),
                             sequence := if who == s.tx.source then s.tx.sequence else l.accounts[who].sequence)
  {
  }

  lemma SpendableAfter(l: State, l': State, sponsor: AccountId, units: nat, base: nat, reserve: int)
    requires Kept(l, l', sponsor, units) && reserve == units * base
    ensures Spendable(l', sponsor, base) >= Spendable(l, sponsor, base) - reserve
  {
    var a, b := l.accounts[sponsor].sponsoring, l'.accounts[sponsor].sponsoring;
    ProductMonotone(2 + b, 2 + a + units, base);
    assert (2 + a + units) * base == (2 + a) * base + units * base;
  }
}
