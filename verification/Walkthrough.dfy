// One ordinary quote from plan to ledger: the hypotheses of the main theorems hold together.
module Walkthrough {
  import opened Prelude
  import opened Stellar
  import opened Names
  import opened Plans
  import opened Pricing
  import opened Build
  import opened Verify
  import opened Agreement
  import opened RequestOnly
  import opened SponsorEffects
  import opened Economy
  import opened Runs
  import opened Ledger
  import opened Claims
  import opened OpenClaims
  import opened BootstrapFunding
  import opened Service
  import Pipeline
  import NewAccounts
  import Decimal
  import Predicates
  import Calendar

  const PARAMS := NetworkParams(100, 5_000_000, 1_000)
  const TERMS := Config(0, 0, 60, 0)

  function OneLumen(): string { Decimal.FormatStroops(10_000_000) }

  /** A user pays somebody a lumen, and the service in lumens. */
  function PayOps(payee: AccountId): seq<UserOp> { [Pay(Strkey(payee), NativeText, OneLumen())] }

  function Ask(user: AccountId, payee: AccountId): Request {
    Verify.Request(Strkey(user), NativeText, NumberCeiling(1_000), PayOps(payee))
  }

  function Answer(user: AccountId, sponsor: AccountId, payee: AccountId): Quote {
    Quote("network", Sponsored, Strkey(user), Strkey(sponsor), None, PayOps(payee), NativeText,
          300, 300, [], 0, 8, 200, 0, 180, 1_060)
  }

  function Written(user: AccountId, sponsor: AccountId, payee: AccountId): Transaction {
    Transaction(user, 200, 8, 0, 180, None, [
      Operation(None, Payment(payee, Native, 10_000_000)),
      Operation(None, PathStrictReceive(Native, 300, sponsor, Native, 300, []))])
  }

  function Sent(user: AccountId, sponsor: AccountId, payee: AccountId): TxEnvelope {
    var tx := Written(user, sponsor, payee);
    TxEnvelope(tx, [Signature(user, TxPayload("network", tx))])
  }

  function Bumped(user: AccountId, sponsor: AccountId, payee: AccountId): Envelope {
    var inner := Sent(user, sponsor, payee);
    FeeBump(sponsor, 300, inner, [Signature(sponsor, BumpPayload("network", sponsor, 300, inner))])
  }

  function Agreed(user: AccountId, sponsor: AccountId, payee: AccountId): Deal {
    Deal(Answer(user, sponsor, payee), PARAMS, TERMS, sponsor, [], Sent(user, sponsor, payee),
         Bumped(user, sponsor, payee))
  }

  function Before(user: AccountId, sponsor: AccountId, payee: AccountId): State {
    var funded := AccountEntry(100_000_000, 7, 0, 0, 0);
    State(map[user := funded, payee := funded, sponsor := funded], map[], map[], map[])
  }

  function Quiet(): Env {
    Env("network", 5_000_000, 100, 0, (_, _, _, _, _) => None, (_, _, _, _, _) => None, _ => BalanceId([]))
  }

  lemma IsPlanned(payee: AccountId)
    ensures PlanFor(PayOps(payee), true) == Ok(Plan(Sponsored, PayOps(payee), 0, 0, 0))
  {
    var ops := PayOps(payee);
    assert ops[..|ops| - 1] == [];
    assert FirstError([]) == None;
    assert CheckOp(ops[0]) == None;
    assert Count([], CreateKind) == Count([], TrustKind) == Count([], LeaveKind) == 0;
    assert Count(ops, CreateKind) == Count(ops, LeaveKind) == Count(ops, TrustKind) == 0;
  }

  lemma IsIssued(user: AccountId, sponsor: AccountId, payee: AccountId)
    ensures Issued(Answer(user, sponsor, payee), PARAMS, TERMS) && SaneTerms(PARAMS, TERMS)
  {
    hide PlanFor;
    IsPlanned(payee);
  }

  lemma LumenReads()
    ensures Amount(OneLumen()) == Ok(10_000_000) && Decimal.ToStroops(OneLumen()) == Some(10_000_000)
  {
    hide Decimal.FormatStroops, Decimal.ParseAmountStroops, Decimal.ToStroops;
    Decimal.FormatParseRoundTrip(10_000_000);
    Decimal.ToStroopsAgreesWithParse(OneLumen());
  }

  lemma IsWritten(user: AccountId, sponsor: AccountId, payee: AccountId)
    requires user != sponsor
    ensures Built(Answer(user, sponsor, payee)) == Ok(Written(user, sponsor, payee))
  {
    hide OneLumen, Decimal.ParseAmountStroops;
    LumenReads();
    var q, ops := Answer(user, sponsor, payee), Written(user, sponsor, payee).ops;
    assert q.ops[..|q.ops| - 1] == [];
    assert UserOperations(q, None, []) == Ok([]);
    assert UserOperation(q, None, q.ops[0]) == Ok(ops[0]);
    assert [] + [ops[0]] == [ops[0]];
    assert UserOperations(q, None, q.ops) == Ok([ops[0]]);
    assert FeeOp(q) == Ok(ops[1]);
    assert [] + [ops[0]] + [] + [ops[1]] == ops;
  }

  lemma IsHonest(user: AccountId, sponsor: AccountId, payee: AccountId)
    requires user != sponsor
    ensures Honest(Agreed(user, sponsor, payee))
  {
    hide Built, Issued;
    IsIssued(user, sponsor, payee);
    IsWritten(user, sponsor, payee);
  }

  lemma IsAccepted(user: AccountId, sponsor: AccountId, payee: AccountId)
    requires user != sponsor
    ensures Accepts(Plain(Sent(user, sponsor, payee)), Answer(user, sponsor, payee), Ask(user, payee),
                    Expectations(Some("network"), Some(Strkey(sponsor))))
    ensures Encodable(Written(user, sponsor, payee)) && RequestSpelled(Ask(user, payee))
  {
    hide Built, Accepts, OneLumen, Decimal.ParseAmountStroops, Decimal.ToStroops;
    LumenReads();
    var q, r := Answer(user, sponsor, payee), Ask(user, payee);
    IsWritten(user, sponsor, payee);
    assert SameOp(q.ops[0], r.ops[0]);
    VerifierComplete(q, r, Expectations(Some("network"), Some(Strkey(sponsor))), Sent(user, sponsor, payee).signatures);
  }

  lemma OneStep(l: State, ops: seq<Operation>, i: nat, txSource: AccountId, env: Env)
    requires i < |ops| && Exec(l, ops[..i], txSource, env).Ok?
    ensures Exec(l, ops[..i + 1], txSource, env)
         == Step(Exec(l, ops[..i], txSource, env).value, ops[i].body, EffectiveSource(ops[i], txSource), env, i)
  {
    hide Step;
    assert ops[..i + 1][..i] == ops[..i];
  }

  lemma RunsThrough(user: AccountId, sponsor: AccountId, payee: AccountId)
    requires user != sponsor && user != payee && payee != sponsor
    ensures Apply(Before(user, sponsor, payee), SubmissionOf(Bumped(user, sponsor, payee)), 300, Quiet()).Succeeded?
  {
    hide Exec;
    var ops, env := Written(user, sponsor, payee).ops, Quiet();
    var paid := Charge(Before(user, sponsor, payee), SubmissionOf(Bumped(user, sponsor, payee)), 300);
    NoSteps(paid, ops, user, env);
    OneStep(paid, ops, 0, user, env);
    OneStep(paid, ops, 1, user, env);
    assert ops[..2] == ops;
  }

  lemma NoSteps(l: State, ops: seq<Operation>, txSource: AccountId, env: Env)
    ensures Exec(l, ops[..0], txSource, env) == Ok(l)
  {
  }

  /**
   * Nothing the main theorems ask for excludes the rest: an honest quote whose built transaction the
   * checker accepts, that passes the float check, is signed by everybody it has to be, and applies.
   */
  lemma HypothesesMeet(user: AccountId, sponsor: AccountId, payee: AccountId)
    requires user != sponsor && user != payee && payee != sponsor
    ensures var (d, l, env) := (Agreed(user, sponsor, payee), Before(user, sponsor, payee), Quiet());
      && Honest(d) && env.baseReserve == d.params.baseReserve && Authorised(d.envelope, env.network)
      && Accepts(Plain(d.inner), d.q, Ask(user, payee), Expectations(Some("network"), Some(Strkey(sponsor))))
      && Encodable(d.inner.tx) && RequestSpelled(Ask(user, payee))
      && FloatCheck(Spendable(l, sponsor, env.baseReserve), d.q, |d.inner.tx.ops|, d.params.baseFee)
      && Apply(l, SubmissionOf(d.envelope), 300, env).Succeeded?
      && FairHistory(l, [Runs.Sent(d, 300, env)], sponsor, env.baseReserve)
  {
    hide Honest, Accepts, Exec, Encodable, RequestSpelled;
    IsHonest(user, sponsor, payee);
    IsAccepted(user, sponsor, payee);
    RunsThrough(user, sponsor, payee);
    var l, h := Before(user, sponsor, payee), Runs.Sent(Agreed(user, sponsor, payee), 300, Quiet());
    assert [h][..0] == [];
    assert StateAt(l, []) == l;
    assert FairHistory(l, [], sponsor, 5_000_000);
  }

  // ---------- A new account ----------

  const EIGHT_BYTES: seq<byte> := [7, 7, 7, 7, 7, 7, 7, 7]
  const LEFT := BalanceId(EIGHT_BYTES + EIGHT_BYTES + EIGHT_BYTES + EIGHT_BYTES)

  function LeftText(): string { RenderBalanceId(LEFT) }

  /** An account that does not exist yet claims ten lumens left for it, and pays out of them. */
  function NewOps(user: AccountId): seq<UserOp> { [Create(Strkey(user)), Claim(LeftText())] }

  function NewAnswer(user: AccountId, sponsor: AccountId): Quote {
    Quote("network", Bootstrap, Strkey(user), Strkey(sponsor), None, NewOps(user), NativeText,
          10_000_600, 10_000_600, [], 10_000_000, 8, 500, 0, 180, 1_060)
  }

  function NewWritten(user: AccountId, sponsor: AccountId): Transaction {
    Transaction(sponsor, 500, 8, 0, 180, None, [
      Operation(None, BeginSponsoring(user)),
      Operation(None, CreateAccount(user, 0)),
      Operation(Some(user), ClaimClaimable(LEFT)),
      Operation(Some(user), EndSponsoring),
      Operation(Some(user), PathStrictReceive(Native, 10_000_600, sponsor, Native, 10_000_600, []))])
  }

  function LeftEntry(user: AccountId, sender: AccountId): ClaimableEntry {
    ClaimableEntry(Native, 100_000_000, multiset{Claimant(user, Unconditional)}, 0, sender)
  }

  function NewBefore(user: AccountId, sponsor: AccountId, sender: AccountId): State {
    State(map[sponsor := AccountEntry(100_000_000, 7, 0, 0, 0)], map[], map[LEFT := LeftEntry(user, sender)], map[])
  }

  function Midnight(): string {
    Calendar.DateText(Calendar.EPOCH) + "T" + Calendar.TimeText(0, 0, 0) + "" + "Z"
  }

  function LeftRecord(user: AccountId): ClaimableRecord {
    var anyTime := Predicates.EMPTY_NODE.(unconditional := Some(true));
    ClaimableRecord(NativeText, Decimal.FormatStroops(100_000_000),
                    [HorizonClaimant(Strkey(user), anyTime)], Some(Midnight()))
  }

  function Shown(user: AccountId): Horizon { id => if id == LeftText() then Found(LeftRecord(user)) else Missing }

  lemma NewIsPlanned(user: AccountId)
    ensures PlanFor(NewOps(user), false) == Ok(Plan(Bootstrap, NewOps(user), 1, 0, 0))
  {
    hide ParseBalanceId;
    ParseRendered(LEFT);
    var ops := NewOps(user);
    assert ops[..1] == [ops[0]] && ops[..1][..0] == [];
    assert CheckOp(ops[0]) == None && CheckOp(ops[1]) == None;
    assert FirstError([]) == None && FirstError(ops[..1]) == None;
    forall k ensures Count(ops, k) == (if IsKind(ops[0], k) then 1 else 0) + (if IsKind(ops[1], k) then 1 else 0) {
      assert Count([], k) == 0;
      assert Count(ops[..1], k) == if IsKind(ops[0], k) then 1 else 0;
    }
  }

  lemma NewIsIssued(user: AccountId, sponsor: AccountId)
    ensures Issued(NewAnswer(user, sponsor), PARAMS, TERMS)
  {
    hide PlanFor;
    NewIsPlanned(user);
  }

  lemma NewIsWritten(user: AccountId, sponsor: AccountId)
    ensures Built(NewAnswer(user, sponsor)) == Ok(NewWritten(user, sponsor))
  {
    hide ParseBalanceId;
    ParseRendered(LEFT);
    var q, ops := NewAnswer(user, sponsor), NewWritten(user, sponsor).ops;
    var us := Some(user);
    assert q.ops[..1] == [q.ops[0]] && q.ops[..1][..0] == [];
    assert UserOperations(q, us, []) == Ok([]);
    assert UserOperation(q, us, q.ops[0]) == Ok(ops[1]) && UserOperation(q, us, q.ops[1]) == Ok(ops[2]);
    assert [] + [ops[1]] == [ops[1]] && [ops[1]] + [ops[2]] == [ops[1], ops[2]];
    assert UserOperations(q, us, q.ops[..1]) == Ok([ops[1]]);
    assert UserOperations(q, us, q.ops) == Ok([ops[1], ops[2]]);
    assert FeeOp(q) == Ok(ops[4]);
    assert [ops[0]] + [ops[1], ops[2]] + [ops[3]] + [ops[4]] == ops;
  }

  lemma NewRunsThrough(user: AccountId, sponsor: AccountId, sender: AccountId)
    requires user != sponsor && sender != user && sender != sponsor
    ensures Exec(NewBefore(user, sponsor, sender), NewWritten(user, sponsor).ops[..4], sponsor, Quiet()).Ok?
  {
    hide Exec;
    var l, ops, env := NewBefore(user, sponsor, sender), NewWritten(user, sponsor).ops, Quiet();
    assert Claimant(user, Unconditional) in l.claimables[LEFT].claimants;
    NoSteps(l, ops, sponsor, env);
    OneStep(l, ops, 0, sponsor, env);
    OneStep(l, ops, 1, sponsor, env);
    OneStep(l, ops, 2, sponsor, env);
    OneStep(l, ops, 3, sponsor, env);
  }

  lemma MidnightReads(user: AccountId)
    ensures CreatedAt(LeftRecord(user)) == Some(0)
  {
    hide Calendar.DateText, Calendar.TimeText, Calendar.ParseStamp;
    Calendar.StampReads(Calendar.EPOCH, 0, 0, 0, "", "Z");
  }

  lemma LeftIsShown(user: AccountId, sponsor: AccountId, sender: AccountId)
    ensures Shows(Shown(user), NewBefore(user, sponsor, sender))
    ensures ShowsEntries(Shown(user), NewBefore(user, sponsor, sender))
  {
    hide ParseBalanceId, RenderBalanceId, Decimal.FormatStroops, CreatedAt, Midnight;
    ParseRendered(LEFT);
    MidnightReads(user);
    var record, entry := LeftRecord(user), LeftEntry(user, sender);
    var c := Claimant(user, Unconditional);
    assert Stands(record.claimants[0], c) && c in entry.claimants;
  }

  lemma LeftSuffices(user: AccountId, now: int)
    ensures ClaimsSuffice(Shown(user), Strkey(user), NewOps(user), Bootstrap, now,
                          NeedFor(Bootstrap, NativeText, 10_000_600))
  {
    hide RenderBalanceId, Decimal.FormatStroops, Decimal.ParseAmountStroops;
    Decimal.FormatParseRoundTrip(100_000_000);
    var ops, need, h := NewOps(user), NeedFor(Bootstrap, NativeText, 10_000_600), Shown(user);
    OneMore(h, Strkey(user), [], ops[0], now, need);
    OneMore(h, Strkey(user), [ops[0]], ops[1], now, need);
    assert [] + [ops[0]] == [ops[0]] && [ops[0]] + [ops[1]] == ops;
    assert Arriving(h, [], need) == 0;
    assert Arriving(h, ops, need) == 100_000_000;
    var record := LeftRecord(user);
    assert record.claimants[0].destination == Strkey(user);
    assert ClaimableBy(record, Strkey(user), now);
  }

  /** The same for a bootstrap quote: every hypothesis of the funding theorem at once. */
  lemma NewHypothesesMeet(user: AccountId, sponsor: AccountId, sender: AccountId, now: int)
    requires user != sponsor && sender != user && sender != sponsor
    ensures var (q, l) := (NewAnswer(user, sponsor), NewBefore(user, sponsor, sender));
      && Issued(q, PARAMS, TERMS) && Built(q) == Ok(NewWritten(user, sponsor)) && q.feeToken == Canonical(Native)
      && SomeClaim(q.ops) && OnlyClaims(q.ops) && DistinctIds(q.ops)
      && Shows(Shown(user), l) && ShowsEntries(Shown(user), l)
      && ClaimsSuffice(Shown(user), q.source, q.ops, q.mode, now, NeedFor(q.mode, q.feeToken, q.sendMaxStroops))
      && BalanceOf(l, user, Native) >= 0
      && Exec(l, NewWritten(user, sponsor).ops[..4], sponsor, Quiet()).Ok?
  {
    hide Issued, Built, Shows, ShowsEntries, ClaimsSuffice, Exec, RenderBalanceId;
    NewIsIssued(user, sponsor);
    NewIsWritten(user, sponsor);
    NewRunsThrough(user, sponsor, sender);
    LeftIsShown(user, sponsor, sender);
    LeftSuffices(user, now);
    assert NewOps(user)[1].Claim?;
  }

  function NewAgreed(user: AccountId, sponsor: AccountId): Deal {
    var tx := NewWritten(user, sponsor);
    var byUser, bySponsor := Signature(user, TxPayload("network", tx)), Signature(sponsor, TxPayload("network", tx));
    Deal(NewAnswer(user, sponsor), PARAMS, TERMS, sponsor, [], TxEnvelope(tx, [byUser]),
         Plain(TxEnvelope(tx, [byUser, bySponsor])))
  }

  lemma NewIsHonest(user: AccountId, sponsor: AccountId)
    requires user != sponsor
    ensures Honest(NewAgreed(user, sponsor))
  {
    hide Built, Issued;
    NewIsIssued(user, sponsor);
    NewIsWritten(user, sponsor);
    var inner := NewAgreed(user, sponsor).inner;
    assert inner.signatures + [Signature(sponsor, TxPayload("network", inner.tx))]
        == NewAgreed(user, sponsor).envelope.inner.signatures;
  }

  function Asked(user: AccountId): SubmitWorld {
    SubmitWorld(PARAMS, _ => [], Shown(user), 100, 90_000_000, _ => true)
  }

  /** And `Submit` sends it, having seen the ledger that then includes it. */
  lemma PipelineHypothesesMeet(user: AccountId, sponsor: AccountId, sender: AccountId)
    requires user != sponsor && sender != user && sender != sponsor
    ensures var (d, l, w, env) := (NewAgreed(user, sponsor), NewBefore(user, sponsor, sender), Asked(user), Quiet());
      && Pipeline.WasSent(d, Decoded(Plain(d.inner)), w) && Pipeline.Saw(d, w, l, env)
      && DistinctIds(d.q.ops) && OnlyClaims(d.q.ops) && d.q.mode.Bootstrap? && FreshIds(d.inner.tx.ops, env, l)
      && Authorised(d.envelope, env.network)
      && !Apply(l, SubmissionOf(d.envelope), 500, env).Rejected?
  {
    hide Issued, Built, Shows, ShowsEntries, ClaimsSuffice, Exec, RenderBalanceId, ParseBalanceId;
    NewIsHonest(user, sponsor);
    LeftIsShown(user, sponsor, sender);
    LeftSuffices(user, 100);
    var d := NewAgreed(user, sponsor);
    GateIsExact(Decoded(Plain(d.inner)), d.q, PARAMS.latestLedger, d.inner);
  }

  lemma NewFits(user: AccountId, sponsor: AccountId, sender: AccountId)
    ensures NewAccounts.AllFit(NewBefore(user, sponsor, sender).claimables, user, NewOps(user))
  {
    hide ParseBalanceId, RenderBalanceId, NewAccounts.Held, NewAccounts.OpenLimit, NewAccounts.LimitOf;
    ParseRendered(LEFT);
    var there, ops := NewBefore(user, sponsor, sender).claimables, NewOps(user);
    assert ops[..0] == [] && ops[..1] == [] + [ops[0]];
    NewAccounts.HeldOneMore(there, [], ops[0], Native);
    NothingHeld(there);
    assert !NewAccounts.ClaimedBefore(ops[..1], ops[1]);
    assert NewAccounts.Fits(there, user, ops[..0], ops[0]) && NewAccounts.Fits(there, user, ops[..1], ops[1]);
  }

  lemma NothingHeld(there: NewAccounts.Entries)
    ensures NewAccounts.Held(there, [], Native) == 0
  {
  }

  /** And it succeeds, because its operations fit. */
  lemma NewAccountGoesThrough(user: AccountId, sponsor: AccountId, sender: AccountId)
    requires user != sponsor && sender != user && sender != sponsor
    ensures var (d, l, env) := (NewAgreed(user, sponsor), NewBefore(user, sponsor, sender), Quiet());
      && NewAccounts.Fresh(d, l, env) && NewAccounts.AllFit(l.claimables, user, d.q.ops)
      && Apply(l, SubmissionOf(d.envelope), 500, env).Succeeded?
  {
    hide Apply, Pipeline.WasSent, Pipeline.Saw, NewAccounts.AllFit, SubmissionOf, FreshIds, Honest, RenderBalanceId;
    hide DistinctIds;
    PipelineHypothesesMeet(user, sponsor, sender);
    NewFits(user, sponsor, sender);
    var d := NewAgreed(user, sponsor);
    NewAccounts.SucceedsExactlyWhen(d, Decoded(Plain(d.inner)), Asked(user), NewBefore(user, sponsor, sender), 500,
                                    Quiet());
  }

  // ---------- An account that acts before it is there ----------

  function EarlyOps(user: AccountId): seq<UserOp> { [Claim(LeftText()), Create(Strkey(user))] }

  function EarlyAnswer(user: AccountId, sponsor: AccountId): Quote {
    NewAnswer(user, sponsor).(ops := EarlyOps(user))
  }

  function EarlyWritten(user: AccountId, sponsor: AccountId): Transaction {
    var ops := NewWritten(user, sponsor).ops;
    NewWritten(user, sponsor).(ops := [ops[0], ops[2], ops[1], ops[3], ops[4]])
  }

  function EarlyAgreed(user: AccountId, sponsor: AccountId): Deal {
    var tx := EarlyWritten(user, sponsor);
    var byUser, bySponsor := Signature(user, TxPayload("network", tx)), Signature(sponsor, TxPayload("network", tx));
    Deal(EarlyAnswer(user, sponsor), PARAMS, TERMS, sponsor, [], TxEnvelope(tx, [byUser]),
         Plain(TxEnvelope(tx, [byUser, bySponsor])))
  }

  lemma EarlyIsPlanned(user: AccountId)
    ensures PlanFor(EarlyOps(user), false) == Ok(Plan(Bootstrap, EarlyOps(user), 1, 0, 0))
  {
    hide ParseBalanceId;
    ParseRendered(LEFT);
    var ops := EarlyOps(user);
    assert ops[..1] == [ops[0]] && ops[..1][..0] == [];
    assert CheckOp(ops[0]) == None && CheckOp(ops[1]) == None;
    assert FirstError([]) == None && FirstError(ops[..1]) == None;
    forall k ensures Count(ops, k) == (if IsKind(ops[0], k) then 1 else 0) + (if IsKind(ops[1], k) then 1 else 0) {
      assert Count([], k) == 0;
      assert Count(ops[..1], k) == if IsKind(ops[0], k) then 1 else 0;
    }
  }

  lemma EarlyIsIssued(user: AccountId, sponsor: AccountId)
    ensures Issued(EarlyAnswer(user, sponsor), PARAMS, TERMS)
  {
    hide PlanFor;
    EarlyIsPlanned(user);
  }

  lemma EarlyIsWritten(user: AccountId, sponsor: AccountId)
    ensures Built(EarlyAnswer(user, sponsor)) == Ok(EarlyWritten(user, sponsor))
  {
    hide ParseBalanceId;
    ParseRendered(LEFT);
    var q, ops := EarlyAnswer(user, sponsor), EarlyWritten(user, sponsor).ops;
    var us := Some(user);
    assert q.ops[..1] == [q.ops[0]] && q.ops[..1][..0] == [];
    assert UserOperations(q, us, []) == Ok([]);
    assert UserOperation(q, us, q.ops[0]) == Ok(ops[1]) && UserOperation(q, us, q.ops[1]) == Ok(ops[2]);
    assert [] + [ops[1]] == [ops[1]] && [ops[1]] + [ops[2]] == [ops[1], ops[2]];
    assert UserOperations(q, us, q.ops[..1]) == Ok([ops[1]]);
    assert UserOperations(q, us, q.ops) == Ok([ops[1], ops[2]]);
    assert FeeOp(q) == Ok(ops[4]);
    assert [ops[0]] + [ops[1], ops[2]] + [ops[3]] + [ops[4]] == ops;
  }

  lemma EarlyIsHonest(user: AccountId, sponsor: AccountId)
    requires user != sponsor
    ensures Honest(EarlyAgreed(user, sponsor))
  {
    hide Built, Issued;
    EarlyIsIssued(user, sponsor);
    EarlyIsWritten(user, sponsor);
    var inner := EarlyAgreed(user, sponsor).inner;
    assert inner.signatures + [Signature(sponsor, TxPayload("network", inner.tx))]
        == EarlyAgreed(user, sponsor).envelope.inner.signatures;
  }

  lemma EarlySuffices(user: AccountId, now: int)
    ensures ClaimsSuffice(Shown(user), Strkey(user), EarlyOps(user), Bootstrap, now,
                          NeedFor(Bootstrap, NativeText, 10_000_600))
  {
    hide RenderBalanceId, Decimal.FormatStroops, Decimal.ParseAmountStroops, ClaimableBy;
    Decimal.FormatParseRoundTrip(100_000_000);
    var ops, need, h := EarlyOps(user), NeedFor(Bootstrap, NativeText, 10_000_600), Shown(user);
    LeftIsOpen(user, now);
    OneMore(h, Strkey(user), [], ops[0], now, need);
    OneMore(h, Strkey(user), [ops[0]], ops[1], now, need);
    assert [] + [ops[0]] == [ops[0]] && [ops[0]] + [ops[1]] == ops;
    assert Arriving(h, [], need) == 0;
    assert Arriving(h, ops, need) == 100_000_000;
  }

  /**
   * A request that claims before it creates is planned, priced, checked, built, signed and sent, and on
   * the very ledger it was checked against it fails at the sponsor's cost.
   */
  lemma EarlyClaimCosts(user: AccountId, sponsor: AccountId, sender: AccountId)
    requires user != sponsor && sender != user && sender != sponsor
    ensures var (d, l, w, env) := (EarlyAgreed(user, sponsor), NewBefore(user, sponsor, sender), Asked(user), Quiet());
      && Pipeline.WasSent(d, Decoded(Plain(d.inner)), w) && Pipeline.Saw(d, w, l, env)
      && Authorised(d.envelope, env.network)
      && Apply(l, SubmissionOf(d.envelope), 500, env) == Failed(Charge(l, SubmissionOf(d.envelope), 500))
  {
    hide Issued, Built, Shows, ShowsEntries, ClaimsSuffice, Exec, RenderBalanceId, ParseBalanceId;
    EarlyIsHonest(user, sponsor);
    LeftIsShown(user, sponsor, sender);
    EarlySuffices(user, 100);
    var d, l := EarlyAgreed(user, sponsor), NewBefore(user, sponsor, sender);
    GateIsExact(Decoded(Plain(d.inner)), d.q, PARAMS.latestLedger, d.inner);
    var paid := Charge(l, SubmissionOf(d.envelope), 500);
    EarlyStops(user, sponsor, paid);
    StoppedStays(paid, d.inner.tx.ops, 2, sponsor, Quiet());
  }

  lemma EarlyStops(user: AccountId, sponsor: AccountId, paid: State)
    requires user !in paid.accounts && user != sponsor && paid.sandwiches == map[]
    ensures Exec(paid, EarlyWritten(user, sponsor).ops[..2], sponsor, Quiet()).Err?
  {
    hide Exec;
    var ops, env := EarlyWritten(user, sponsor).ops, Quiet();
    NoSteps(paid, ops, sponsor, env);
    OneStep(paid, ops, 0, sponsor, env);
    if Exec(paid, ops[..1], sponsor, env).Ok? {
      OneStep(paid, ops, 1, sponsor, env);
    } else {
      assert ops[..2][..1] == ops[..1];
      StoppedStays(paid, ops[..2], 1, sponsor, env);
    }
  }

  // ---------- A sponsor with subentries of its own ----------

  /** Enough for the check, and for a fee; not for the new account's reserves. */
  function Thin(sponsor: AccountId, own: nat): State {
    State(map[sponsor := AccountEntry(10_000_600 + Max(own, 2) * 5_000_000, 7, own, 0, 0)], map[], map[], map[])
  }

  lemma ThinStops(user: AccountId, sponsor: AccountId, own: nat)
    requires user != sponsor && own > 0
    ensures var (d, l, env) := (NewAgreed(user, sponsor), Thin(sponsor, own), Quiet());
      && FloatCheck(Spendable(l, sponsor, env.baseReserve), d.q, |d.inner.tx.ops|, d.params.baseFee)
      && Exec(Charge(l, SubmissionOf(d.envelope), 500), d.inner.tx.ops[..2], sponsor, env) == Err(LowReserve(sponsor))
  {
    hide Exec;
    var ops, env := NewWritten(user, sponsor).ops, Quiet();
    var paid := Charge(Thin(sponsor, own), SubmissionOf(NewAgreed(user, sponsor).envelope), 500);
    NoSteps(paid, ops, sponsor, env);
    OneStep(paid, ops, 0, sponsor, env);
    OneStep(paid, ops, 1, sponsor, env);
  }

  /** The quote is signed by everybody, passes the check, is included, and fails at the sponsor's cost. */
  lemma FloatPassesQuoteFails(user: AccountId, sponsor: AccountId, own: nat)
    requires user != sponsor && own > 0
    ensures var (d, l, env) := (NewAgreed(user, sponsor), Thin(sponsor, own), Quiet());
      && Honest(d) && Authorised(d.envelope, env.network)
      && FloatCheck(Spendable(l, sponsor, env.baseReserve), d.q, |d.inner.tx.ops|, d.params.baseFee)
      && Apply(l, SubmissionOf(d.envelope), 500, env) == Failed(Charge(l, SubmissionOf(d.envelope), 500))
  {
    hide Exec, Honest, FloatCheck;
    var l, ops := Thin(sponsor, own), NewWritten(user, sponsor).ops;
    NewIsHonest(user, sponsor);
    ThinStops(user, sponsor, own);
    StoppedStays(Charge(l, SubmissionOf(NewAgreed(user, sponsor).envelope), 500), ops, 2, sponsor, Quiet());
  }

  function OwnSubentries(l: State, who: AccountId): Option<int> {
    if who in l.accounts then Some(l.accounts[who].subentries - l.accounts[who].sponsored) else None
  }

  /** Every included quote is protected by the check, for sponsors with `own` unsponsored subentries. */
  ghost predicate FloatEnoughWith(own: int) {
    forall d: Deal, l: State, fee: nat, env: Env, i: nat ::
      OwnSubentries(l, d.sponsorKey) == Some(own) && !Apply(l, SubmissionOf(d.envelope), fee, env).Rejected?
      ==> Protected(d, l, fee, env, i)
  }

  /** The float check keeps the sponsor above its minimum exactly when it has no reserves of its own to carry. */
  lemma FloatEnoughExactlyWithoutOwnSubentries(own: int)
    ensures FloatEnoughWith(own) <==> own <= 0
  {
    hide Protected, Apply;
    if own <= 0 {
      forall d: Deal, l: State, fee: nat, env: Env, i: nat | OwnSubentries(l, d.sponsorKey) == Some(own)
        ensures Protected(d, l, fee, env, i)
      {
        FloatProtects(d, l, fee, env, i);
      }
    } else {
      NotEnough(AccountId([1]), AccountId([2]), own);
    }
  }

  lemma NotEnough(user: AccountId, sponsor: AccountId, own: nat)
    requires user != sponsor && own > 0
    ensures !FloatEnoughWith(own)
  {
    hide Protected, Apply, SubmissionOf, Spendable, Honest, FloatCheck, Authorised;
    Unprotected(user, sponsor, own);
    FloatPassesQuoteFails(user, sponsor, own);
    var d, l := NewAgreed(user, sponsor), Thin(sponsor, own);
    assert OwnSubentries(l, d.sponsorKey) == Some(own);
    assert !Protected(d, l, 500, Quiet(), 2);
  }

  lemma Unprotected(user: AccountId, sponsor: AccountId, own: nat)
    requires user != sponsor && own > 0
    ensures !Protected(NewAgreed(user, sponsor), Thin(sponsor, own), 500, Quiet(), 2)
  {
    hide Honest, FloatCheck, Exec, Charge;
    NewIsHonest(user, sponsor);
    ThinStops(user, sponsor, own);
  }

  // ---------- The same balance claimed twice ----------

  function TwiceOps(user: AccountId): seq<UserOp> { NewOps(user) + [Claim(LeftText())] }

  function TwiceAnswer(user: AccountId, sponsor: AccountId): Quote {
    NewAnswer(user, sponsor).(
      ops := TwiceOps(user), chargeStroops := 10_000_700, sendMaxStroops := 10_000_700, innerFeeStroops := 600)
  }

  function TwiceWritten(user: AccountId, sponsor: AccountId): Transaction {
    Transaction(sponsor, 600, 8, 0, 180, None, [
      Operation(None, BeginSponsoring(user)),
      Operation(None, CreateAccount(user, 0)),
      Operation(Some(user), ClaimClaimable(LEFT)),
      Operation(Some(user), ClaimClaimable(LEFT)),
      Operation(Some(user), EndSponsoring),
      Operation(Some(user), PathStrictReceive(Native, 10_000_700, sponsor, Native, 10_000_700, []))])
  }

  function TwiceAgreed(user: AccountId, sponsor: AccountId): Deal {
    var tx := TwiceWritten(user, sponsor);
    var byUser, bySponsor := Signature(user, TxPayload("network", tx)), Signature(sponsor, TxPayload("network", tx));
    Deal(TwiceAnswer(user, sponsor), PARAMS, TERMS, sponsor, [], TxEnvelope(tx, [byUser]),
         Plain(TxEnvelope(tx, [byUser, bySponsor])))
  }

  lemma TwiceIsPlanned(user: AccountId)
    ensures PlanFor(TwiceOps(user), false) == Ok(Plan(Bootstrap, TwiceOps(user), 1, 0, 0))
  {
    hide ParseBalanceId;
    ParseRendered(LEFT);
    NewIsPlanned(user);
    var ops := TwiceOps(user);
    assert ops[..|ops| - 1] == NewOps(user);
    assert CheckOp(ops[|ops| - 1]) == None;
    assert Count(NewOps(user), ClaimKind) >= 0;
    hide CheckOp;
  }

  lemma TwiceIsIssued(user: AccountId, sponsor: AccountId)
    ensures Issued(TwiceAnswer(user, sponsor), PARAMS, TERMS)
  {
    hide PlanFor;
    TwiceIsPlanned(user);
  }

  lemma TwiceIsWritten(user: AccountId, sponsor: AccountId)
    ensures Built(TwiceAnswer(user, sponsor)) == Ok(TwiceWritten(user, sponsor))
  {
    hide ParseBalanceId;
    ParseRendered(LEFT);
    var q, ops, us := TwiceAnswer(user, sponsor), TwiceWritten(user, sponsor).ops, Some(user);
    assert UserOperation(q, us, q.ops[0]) == Ok(ops[1]) && UserOperation(q, us, q.ops[1]) == Ok(ops[2]);
    assert UserOperation(q, us, q.ops[2]) == Ok(ops[3]);
    assert q.ops[..2][..1] == [q.ops[0]] && q.ops[..2][..1][..0] == [];
    assert UserOperations(q, us, []) == Ok([]);
    assert [] + [ops[1]] == [ops[1]] && [ops[1]] + [ops[2]] == [ops[1], ops[2]];
    assert q.ops[..2][1] == q.ops[1];
    assert UserOperations(q, us, q.ops[..2][..1]) == Ok([ops[1]]);
    assert UserOperations(q, us, q.ops[..2]) == Ok([ops[1], ops[2]]);
    assert q.ops[..|q.ops| - 1] == q.ops[..2] && [ops[1], ops[2]] + [ops[3]] == [ops[1], ops[2], ops[3]];
    assert UserOperations(q, us, q.ops) == Ok([ops[1], ops[2], ops[3]]);
    assert FeeOp(q) == Ok(ops[5]);
    assert [ops[0]] + [ops[1], ops[2], ops[3]] + [ops[4]] + [ops[5]] == ops;
  }

  lemma TwiceIsHonest(user: AccountId, sponsor: AccountId)
    requires user != sponsor
    ensures Honest(TwiceAgreed(user, sponsor))
  {
    hide Built, Issued;
    TwiceIsIssued(user, sponsor);
    TwiceIsWritten(user, sponsor);
    var inner := TwiceAgreed(user, sponsor).inner;
    assert inner.signatures + [Signature(sponsor, TxPayload("network", inner.tx))]
        == TwiceAgreed(user, sponsor).envelope.inner.signatures;
  }

  lemma TwiceArrives(user: AccountId, now: int)
    ensures var (need, h) := (NeedFor(Bootstrap, NativeText, 10_000_700), Shown(user));
      && Arriving(h, TwiceOps(user), need) == 200_000_000 && SomeNeeded(h, TwiceOps(user), need)
      && ClaimOpen(h, Strkey(user), NewOps(user)[1], now, need)
  {
    hide RenderBalanceId, Decimal.FormatStroops, Decimal.ParseAmountStroops, ClaimableBy, SomeNeeded, ClaimOpen;
    Decimal.FormatParseRoundTrip(100_000_000);
    var ops, need, h := NewOps(user), NeedFor(Bootstrap, NativeText, 10_000_700), Shown(user);
    LeftIsOpen(user, now);
    OneMore(h, Strkey(user), [], ops[0], now, need);
    OneMore(h, Strkey(user), [ops[0]], ops[1], now, need);
    OneMore(h, Strkey(user), ops, ops[1], now, need);
    assert [] + [ops[0]] == [ops[0]] && [ops[0]] + [ops[1]] == ops;
    assert Arriving(h, [], need) == 0;
  }

  lemma TwiceSuffices(user: AccountId, now: int)
    ensures ClaimsSuffice(Shown(user), Strkey(user), TwiceOps(user), Bootstrap, now,
                          NeedFor(Bootstrap, NativeText, 10_000_700))
  {
    hide Arriving, SomeNeeded, RenderBalanceId, ClaimableBy, InNeeded, Shown, LeftText;
    TwiceArrives(user, now);
  }

  lemma LeftIsOpen(user: AccountId, now: int)
    ensures ClaimableBy(LeftRecord(user), Strkey(user), now)
  {
    var record := LeftRecord(user);
    assert record.claimants[0].destination == Strkey(user);
  }

  /**
   * A request that claims one balance twice is planned, priced, checked, counted double, built and
   * signed, and on the very ledger it was checked against it fails at the sponsor's cost.
   */
  lemma RepeatedClaimCosts(user: AccountId, sponsor: AccountId, sender: AccountId)
    requires user != sponsor && sender != user && sender != sponsor
    ensures var (d, l, env) := (TwiceAgreed(user, sponsor), NewBefore(user, sponsor, sender), Quiet());
      && Honest(d) && Authorised(d.envelope, env.network)
      && !DistinctIds(d.q.ops) && Shows(Shown(user), l) && ShowsEntries(Shown(user), l)
      && ClaimsSuffice(Shown(user), d.q.source, d.q.ops, d.q.mode, env.closeTime,
                       NeedFor(d.q.mode, d.q.feeToken, d.q.sendMaxStroops))
      && FloatCheck(Spendable(l, sponsor, env.baseReserve), d.q, |d.inner.tx.ops|, d.params.baseFee)
      && Apply(l, SubmissionOf(d.envelope), 600, env) == Failed(Charge(l, SubmissionOf(d.envelope), 600))
  {
    hide Honest, Built, Shows, ShowsEntries, ClaimsSuffice, Exec, ParseBalanceId, RenderBalanceId;
    hide HasShape, DistinctIds;
    var q, tx, l := TwiceAnswer(user, sponsor), TwiceWritten(user, sponsor), NewBefore(user, sponsor, sender);
    var paid := Charge(l, SubmissionOf(TwiceAgreed(user, sponsor).envelope), 600);
    TwiceIsHonest(user, sponsor);
    TwiceIsWritten(user, sponsor);
    BuiltHasShape(q);
    LeftIsShown(user, sponsor, sender);
    TwiceSuffices(user, Quiet().closeTime);
    NotDistinct(user);
    ParseRendered(LEFT);
    assert q.First() + |q.ops| == 4;
    if Exec(paid, tx.ops[..4], sponsor, Quiet()).Ok? {
      RepeatedClaimsNeverRun(paid, q, tx, Quiet());
    } else {
      StoppedStays(paid, tx.ops, 4, sponsor, Quiet());
    }
  }

  lemma NotDistinct(user: AccountId)
    ensures !DistinctIds(TwiceOps(user))
  {
    assert SameClaim(TwiceOps(user)[1], TwiceOps(user)[2]);
  }
}
