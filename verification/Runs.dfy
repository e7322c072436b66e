// Whole histories of the ledger: submissions of the service's quotes among everything else that happens.
module Runs {
  import opened Prelude
  import opened Stellar
  import opened Names
  import opened Plans
  import opened Build
  import opened Pricing
  import opened Ledger
  import opened SponsorEffects
  import opened Economy

  // ---------- The float check ----------

  /** Submit's last look: spendable funds against the reserves and the fee bump to come. */
  predicate FloatCheck(spendable: int, q: Quote, opCount: nat, baseFee: int) {
    spendable >= Saturate(q.reserveStroops + Saturate(baseFee * Saturate(opCount + 1)))
  }

  /** What is asked, exactly: the reserves, and the base fee for every operation and one more. */
  lemma FloatCheckExactly(spendable: int, q: Quote, opCount: nat, baseFee: int)
    requires 0 <= baseFee < TWO_32 && opCount <= 100 && 0 <= q.reserveStroops <= I64_MAX - 101 * TWO_32
    ensures FloatCheck(spendable, q, opCount, baseFee) <==> spendable >= q.reserveStroops + baseFee * (opCount + 1)
  {
    Products(opCount + 1, 101, baseFee);
  }

  /** The figure `sponsor_funds` forgets: what the sponsor's own unsponsored subentries hold down. */
  function OwnReserves(l: State, sponsor: AccountId, base: nat): int
    requires sponsor in l.accounts
  {
    (l.accounts[sponsor].subentries - l.accounts[sponsor].sponsored) * base
  }

  lemma HeadroomOfSpendable(l: State, sponsor: AccountId, base: nat)
    requires sponsor in l.accounts
    ensures Headroom(l, sponsor, base) == Spendable(l, sponsor, base) - OwnReserves(l, sponsor, base)
  {
    var e := l.accounts[sponsor];
    assert MinBalance(e, base) == (2 + e.sponsoring) * base + (e.subentries - e.sponsored) * base;
  }

  lemma {:induction false} PrefixUnits(ops: seq<Operation>, i: nat)
    requires i <= |ops|
    ensures OpsUnits(ops[..i]) <= OpsUnits(ops)
  {
    if i < |ops| {
      PrefixUnits(ops[..|ops| - 1], i);
      assert ops[..|ops| - 1][..i] == ops[..i];
    } else {
      assert ops[..i] == ops;
    }
  }

  lemma PrefixSparing(ops: seq<Operation>, txSource: AccountId, sponsor: AccountId, i: nat)
    requires i <= |ops| && SparingOps(ops, txSource, sponsor)
    ensures SparingOps(ops[..i], txSource, sponsor)
  {
  }

  lemma PaidHeadroom(l: State, s: Submission, fee: nat, sponsor: AccountId, base: nat)
    requires s.tx.source in l.accounts && s.feePayer == sponsor && sponsor in l.accounts
    ensures sponsor in Charge(l, s, fee).accounts
    ensures Headroom(Charge(l, s, fee), sponsor, base) == Headroom(l, sponsor, base) - fee
  {
    ChargeShape(l, s, fee, sponsor);
  }

  /** What is left after a prefix, in numbers only. */
  lemma Leftover(head: int, used: nat, all: nat, base: nat)
    requires used <= all && head >= all * base
    ensures head >= used * base && head - used * base >= 0
  {
    ProductMonotone(used, all, base);
  }

  /**
   * Prefix solvency: if the float check holds of the sponsor's true headroom on the state a quote is
   * applied to, no prefix of its operations takes the sponsor below its minimum balance, and none of
   * them stops because of the sponsor, although every reserve is locked before the charge arrives last.
   */
  lemma SponsorNeverTheReason(d: Deal, l: State, fee: nat, env: Env, i: nat)
    requires Honest(d) && env.baseReserve == d.params.baseReserve
    requires d.sponsorKey in l.accounts && d.inner.tx.source in l.accounts
    requires FloatCheck(Headroom(l, d.sponsorKey, env.baseReserve), d.q, |d.inner.tx.ops|, d.params.baseFee)
    requires fee <= SubmissionOf(d.envelope).feeBid && i <= |d.inner.tx.ops|
    ensures SubmissionOf(d.envelope).tx == d.inner.tx && SubmissionOf(d.envelope).feePayer == d.sponsorKey
    ensures match Exec(Charge(l, SubmissionOf(d.envelope), fee), d.inner.tx.ops[..i], d.inner.tx.source, env)
            case Ok(m) => d.sponsorKey in m.accounts && Headroom(m, d.sponsorKey, env.baseReserve) >= 0
            case Err(f) => !Blames(f, d.sponsorKey)
  {
    hide Honest, SubmissionOf, Charge, Exec, Spendable, Headroom, OpsUnits, Units, Built, FloatCheck, SparingOps, Kept;
    FeeBounded(d);
    ChargeCoversBid(d);
    DealFacts(d);
    var s, sp, ops := SubmissionOf(d.envelope), d.sponsorKey, d.inner.tx.ops;
    var base := env.baseReserve;
    var paid := Charge(l, s, fee);
    FloatCovers(d, Headroom(l, sp, base));
    PaidHeadroom(l, s, fee, sp, base);
    BuiltUnits(d.q);
    BuiltSparing(d.q, sp);
    PrefixUnits(ops, i);
    PrefixSparing(ops, d.inner.tx.source, sp, i);
    Leftover(Headroom(paid, sp, base), OpsUnits(ops[..i]), OpsUnits(ops), base);
    ExecSpares(paid, ops[..i], d.inner.tx.source, env, sp);
    var r := Exec(paid, ops[..i], d.inner.tx.source, env);
    if r.Ok? {
      KeptHeadroom(paid, r.value, sp, OpsUnits(ops[..i]), base);
      KeptHasSponsor(paid, r.value, sp, OpsUnits(ops[..i]));
    }
  }

  /**
   * The converse. Operations of a quote that ran through with reserves locked were covered: the
   * headroom at the start, and whatever the operations sent the sponsor, held the fee and every
   * reserve taken on. So with nothing sent and all of the quote's units locked, the headroom had to
   * be what the float check asks for at the fee taken.
   */
  lemma LockingNeedsHeadroom(d: Deal, l: State, fee: nat, env: Env, i: nat)
    requires Honest(d) && env.baseReserve == d.params.baseReserve
    requires d.sponsorKey in l.accounts && d.inner.tx.source in l.accounts && i <= |d.inner.tx.ops|
    ensures SubmissionOf(d.envelope).tx == d.inner.tx && SubmissionOf(d.envelope).feePayer == d.sponsorKey
    ensures match Exec(Charge(l, SubmissionOf(d.envelope), fee), d.inner.tx.ops[..i], d.inner.tx.source, env)
            case Err(_) => true
            case Ok(m) =>
              d.sponsorKey in m.accounts
              && var taken := m.accounts[d.sponsorKey].sponsoring - l.accounts[d.sponsorKey].sponsoring;
                 var sent := m.accounts[d.sponsorKey].balance - l.accounts[d.sponsorKey].balance + fee;
                 taken > 0 ==> Headroom(l, d.sponsorKey, env.baseReserve) + sent >= fee + taken * env.baseReserve
  {
    hide Honest, SubmissionOf, Charge, Exec, OpsUnits, Units, Built, SparingOps, Spares, Checked, MinBalance;
    FeeBounded(d);
    DealFacts(d);
    var s, sp, ops, base := SubmissionOf(d.envelope), d.sponsorKey, d.inner.tx.ops, env.baseReserve;
    var paid := Charge(l, s, fee);
    ChargeShape(l, s, fee, sp);
    BuiltSparing(d.q, sp);
    PrefixSparing(ops, d.inner.tx.source, sp, i);
    ExecChecked(paid, ops[..i], d.inner.tx.source, env, sp);
    ExecSpares(paid, ops[..i], d.inner.tx.source, env, sp);
    PaidHeadroom(l, s, fee, sp, base);
    var r := Exec(paid, ops[..i], d.inner.tx.source, env);
    if r.Ok? { AfterLocking(paid, r.value, sp, OpsUnits(ops[..i]), base); }
  }

  lemma AfterLocking(l: State, m: State, sponsor: AccountId, units: nat, base: nat)
    requires sponsor in l.accounts && Checked(l, Ok(m), sponsor, base) && Spares(l, Ok(m), sponsor, units, base)
    ensures sponsor in m.accounts
    ensures var taken := m.accounts[sponsor].sponsoring - l.accounts[sponsor].sponsoring;
      var received := m.accounts[sponsor].balance - l.accounts[sponsor].balance;
      taken > 0 ==> Headroom(l, sponsor, base) + received >= taken * base
  {
    var e, f := l.accounts[sponsor], m.accounts[sponsor];
    var taken := f.sponsoring - e.sponsoring;
    if taken > 0 {
      MinBalanceGrows(e, taken, base);
      assert MinBalance(f, base) == MinBalance(e.(sponsoring := e.sponsoring + taken), base);
    }
  }

  /** What prefix solvency says, of one prefix of one quote on one ledger. */
  ghost predicate Protected(d: Deal, l: State, fee: nat, env: Env, i: nat) {
    Honest(d) && env.baseReserve == d.params.baseReserve
    && d.sponsorKey in l.accounts && d.inner.tx.source in l.accounts
    && fee <= SubmissionOf(d.envelope).feeBid && i <= |d.inner.tx.ops|
    && FloatCheck(Spendable(l, d.sponsorKey, env.baseReserve), d.q, |d.inner.tx.ops|, d.params.baseFee)
    ==> && SubmissionOf(d.envelope).tx == d.inner.tx && SubmissionOf(d.envelope).feePayer == d.sponsorKey
        && match Exec(Charge(l, SubmissionOf(d.envelope), fee), d.inner.tx.ops[..i], d.inner.tx.source, env)
           case Ok(m) => d.sponsorKey in m.accounts && Headroom(m, d.sponsorKey, env.baseReserve) >= 0
           case Err(f) => !Blames(f, d.sponsorKey)
  }

  /** The check as `submit` makes it, on spendable funds, is enough for a sponsor without reserves of its own. */
  lemma FloatProtects(d: Deal, l: State, fee: nat, env: Env, i: nat)
    requires d.sponsorKey in l.accounts
    requires l.accounts[d.sponsorKey].subentries <= l.accounts[d.sponsorKey].sponsored
    ensures Protected(d, l, fee, env, i)
  {
    hide Honest, SubmissionOf, Charge, Exec, Spendable, Headroom, MinBalance;
    HeadroomOfSpendable(l, d.sponsorKey, env.baseReserve);
    ProductMonotone(l.accounts[d.sponsorKey].subentries - l.accounts[d.sponsorKey].sponsored, 0, env.baseReserve);
    if Honest(d) && env.baseReserve == d.params.baseReserve && d.inner.tx.source in l.accounts
       && fee <= SubmissionOf(d.envelope).feeBid && i <= |d.inner.tx.ops|
       && FloatCheck(Spendable(l, d.sponsorKey, env.baseReserve), d.q, |d.inner.tx.ops|, d.params.baseFee) {
      SponsorNeverTheReason(d, l, fee, env, i);
    }
  }

  lemma KeptHasSponsor(l: State, l': State, sponsor: AccountId, units: nat)
    requires Kept(l, l', sponsor, units)
    ensures sponsor in l.accounts && sponsor in l'.accounts
  {
  }

  lemma DealFacts(d: Deal)
    requires Honest(d)
    ensures Built(d.q) == Ok(d.inner.tx) && d.q.sponsor == Strkey(d.sponsorKey) && d.q.source != d.q.sponsor
    ensures 0 <= d.params.baseFee < TWO_32 && |d.inner.tx.ops| <= 100 && d.params.baseReserve < TWO_32
    ensures d.q.reserveStroops <= 40 * TWO_32
  {
    hide Signed, Count, FirstError, UserOperation, FeeOp, BeginOp, EndOp, ChargeFor;
    BuiltHasShape(d.q);
    PlanLocksItsUnits(d.q.ops, d.q.mode.Sponsored?, d.params.baseReserve);
    UnitsBounded(d.q.ops);
    Products(Units(d.q.ops), 40, d.params.baseReserve);
  }

  /** No saturation happens at the sizes a ledger header allows. */
  lemma FloatCovers(d: Deal, spendable: int)
    requires FloatCheck(spendable, d.q, |d.inner.tx.ops|, d.params.baseFee)
    requires 0 <= d.params.baseFee < TWO_32 && |d.inner.tx.ops| <= 100
    requires 0 <= d.q.reserveStroops <= 40 * TWO_32
    ensures spendable >= d.q.reserveStroops + d.params.baseFee * (|d.inner.tx.ops| + 1)
  {
    Products(|d.inner.tx.ops| + 1, 101, d.params.baseFee);
  }

  // ---------- Sequence numbers ----------

  /** Accounts stay, and so do their sequence numbers. */
  ghost predicate SameSequences(l: State, l': State) {
    forall a :: a in l.accounts ==> a in l'.accounts && l'.accounts[a].sequence == l.accounts[a].sequence
  }

  ghost predicate KeepsSequences(l: State, r: Outcome) { r.Ok? ==> SameSequences(l, r.value) }

  lemma MovesKeepSequences(l: State, who: AccountId, asset: Asset, n: nat, units: nat, base: nat)
    ensures KeepsSequences(l, Debit(l, who, asset, n, base))
    ensures KeepsSequences(l, Deposit(l, who, asset, n))
    ensures KeepsSequences(l, Ledger.Sponsor(l, who, units, base))
    ensures SameSequences(l, Unsponsor(l, who, units))
  {
    hide MinBalance;
  }

  lemma CreateKeepsSequences(l: State, src: AccountId, id: AccountId, funding: int, env: Env)
    ensures KeepsSequences(l, DoCreate(l, src, id, funding, env))
  {
    hide Debit, Ledger.Sponsor, MinBalance;
    if funding >= 0 && id !in l.accounts {
      MovesKeepSequences(l, src, Native, funding, 2, env.baseReserve);
      var d := Debit(l, src, Native, funding, env.baseReserve);
      if d.Ok? && id in l.sandwiches {
        var l1 := SetAccount(d.value, id, AccountEntry(funding, env.startingSequence, 0, 0, 2));
        MovesKeepSequences(l1, l.sandwiches[id], Native, 0, 2, env.baseReserve);
      }
    }
  }

  lemma PathsKeepSequences(l: State, src: AccountId, body: OpBody, env: Env, k: nat)
    ensures body.PathStrictSend? ==> KeepsSequences(l, DoStrictSend(l, src, body, env, k))
    ensures body.PathStrictReceive? ==> KeepsSequences(l, DoStrictReceive(l, src, body, env, k))
    ensures body.Payment? ==> KeepsSequences(l, DoPay(l, src, body.destination, body.asset, body.amount, env))
  {
    hide Debit, Deposit, Ledger.Cost, Proceeds, MinBalance;
    if body.PathStrictSend? && body.sendAmount > 0 && body.destMin > 0 {
      MovesKeepSequences(l, src, body.sendAsset, body.sendAmount, 0, env.baseReserve);
      var d := Debit(l, src, body.sendAsset, body.sendAmount, env.baseReserve);
      var got := Proceeds(env, k, body.sendAsset, body.path, body.destAsset, body.sendAmount);
      if d.Ok? && got.Some? {
        MovesKeepSequences(d.value, body.destination, body.destAsset, got.value, 0, env.baseReserve);
      }
    }
    if body.PathStrictReceive? && body.sendMax > 0 && body.destAmount > 0 {
      MovesKeepSequences(l, body.destination, body.destAsset, body.destAmount, 0, env.baseReserve);
      var d := Deposit(l, body.destination, body.destAsset, body.destAmount);
      var cost := Ledger.Cost(env, k, body.sendAsset, body.path, body.destAsset, body.destAmount);
      if d.Ok? && cost.Some? {
        MovesKeepSequences(d.value, src, body.sendAsset, cost.value, 0, env.baseReserve);
      }
    }
    if body.Payment? && body.amount > 0 {
      MovesKeepSequences(l, body.destination, body.asset, body.amount, 0, env.baseReserve);
      var d := Deposit(l, body.destination, body.asset, body.amount);
      if d.Ok? { MovesKeepSequences(d.value, src, body.asset, body.amount, 0, env.baseReserve); }
    }
  }

  lemma TrustKeepsSequences(l: State, src: AccountId, asset: Asset, limit: int, env: Env)
    requires src in l.accounts
    ensures KeepsSequences(l, DoTrust(l, src, asset, limit, env))
  {
    hide MinBalance;
  }

  lemma ClaimKeepsSequences(l: State, src: AccountId, id: BalanceId, env: Env)
    ensures KeepsSequences(l, DoClaim(l, src, id, env))
  {
    hide Deposit, Unsponsor, MayClaim;
    if id in l.claimables && l.claimables[id].amount >= 0 {
      var entry := l.claimables[id];
      MovesKeepSequences(l, src, entry.asset, entry.amount, 0, env.baseReserve);
      var d := Deposit(l, src, entry.asset, entry.amount);
      if d.Ok? {
        var l1 := d.value.(claimables := d.value.claimables - {id});
        MovesKeepSequences(l1, entry.sponsor, Native, 0, |entry.claimants|, env.baseReserve);
      }
    }
  }

  lemma LeaveKeepsSequences(l: State, src: AccountId, asset: Asset, n: int, claimants: seq<Claimant>, env: Env, k: nat)
    ensures KeepsSequences(l, DoLeave(l, src, asset, n, claimants, env, k))
  {
    hide Debit, Ledger.Sponsor, Destinations, MinBalance;
    if n > 0 {
      MovesKeepSequences(l, src, asset, n, 0, env.baseReserve);
      var d := Debit(l, src, asset, n, env.baseReserve);
      if d.Ok? {
        var carrier := if src in l.sandwiches then l.sandwiches[src] else src;
        var entry := ClaimableEntry(asset, n, multiset(claimants), env.closeTime, carrier);
        var l1 := d.value.(claimables := d.value.claimables[env.freshId(k) := entry]);
        MovesKeepSequences(l1, carrier, Native, 0, |claimants|, env.baseReserve);
      }
    }
  }

  lemma StepKeepsSequences(l: State, body: OpBody, src: AccountId, env: Env, k: nat)
    ensures KeepsSequences(l, Step(l, body, src, env, k))
  {
    hide DoCreate, DoPay, DoStrictSend, DoStrictReceive, DoClaim, DoTrust, DoLeave;
    if src in l.accounts {
      match body
      case CreateAccount(id, funding) => CreateKeepsSequences(l, src, id, funding, env);
      case ClaimClaimable(id) => ClaimKeepsSequences(l, src, id, env);
      case ChangeTrust(AssetLine(asset), limit) => TrustKeepsSequences(l, src, asset, limit, env);
      case CreateClaimable(asset, n, claimants) => LeaveKeepsSequences(l, src, asset, n, claimants, env, k);
      case _ => PathsKeepSequences(l, src, body, env, k);
    }
  }

  lemma {:induction false} ExecKeepsSequences(l: State, ops: seq<Operation>, txSource: AccountId, env: Env)
    requires Exec(l, ops, txSource, env).Ok?
    ensures SameSequences(l, Exec(l, ops, txSource, env).value)
  {
    hide Step;
    if ops == [] {
    } else {
      var front, op := ops[..|ops| - 1], ops[|ops| - 1];
      ExecKeepsSequences(l, front, txSource, env);
      StepKeepsSequences(Exec(l, front, txSource, env).value, op.body, EffectiveSource(op, txSource), env, |ops| - 1);
    }
  }

  // ---------- Histories ----------

  /**
   * One thing that happens to the ledger: a submission of ours with the fee it is charged, or
   * anything else at all that neither costs the sponsor nor turns a sequence number back.
   */
  datatype Happening = Sent(deal: Deal, fee: nat, env: Env) | Elsewhere(after: State)

  predicate Consumed(l: State, h: Happening) {
    h.Sent? && Includable(l, SubmissionOf(h.deal.envelope), h.env) && h.fee <= SubmissionOf(h.deal.envelope).feeBid
  }

  /** The state after, and whether the happening is one the theorems speak about. */
  ghost function AfterHappening(l: State, h: Happening): State {
    match h
    case Elsewhere(after) => after
    case Sent(d, fee, env) =>
      match Apply(l, SubmissionOf(d.envelope), fee, env)
      case Rejected => l
      case Failed(after) => after
      case Succeeded(after) => after
  }

  ghost predicate SequencesRise(l: State, l': State) {
    forall a :: a in l.accounts ==> a in l'.accounts && l'.accounts[a].sequence >= l.accounts[a].sequence
  }

  ghost predicate Fair(l: State, h: Happening, sponsor: AccountId, base: nat)
    requires sponsor in l.accounts
  {
    match h
    case Sent(d, _, env) => Honest(d) && d.sponsorKey == sponsor && env.baseReserve == base == d.params.baseReserve
    case Elsewhere(after) =>
      && sponsor in after.accounts && SequencesRise(l, after)
      && Spendable(after, sponsor, base) >= Spendable(l, sponsor, base)
  }

  ghost function StateAt(l: State, hs: seq<Happening>): State {
    if hs == [] then l else AfterHappening(StateAt(l, hs[..|hs| - 1]), hs[|hs| - 1])
  }

  ghost predicate FairHistory(l: State, hs: seq<Happening>, sponsor: AccountId, base: nat) {
    if hs == [] then sponsor in l.accounts
    else
      && FairHistory(l, hs[..|hs| - 1], sponsor, base)
      && sponsor in StateAt(l, hs[..|hs| - 1]).accounts
      && Fair(StateAt(l, hs[..|hs| - 1]), hs[|hs| - 1], sponsor, base)
  }

  /** Fees of submissions that were included and then failed: the only thing that is ever lost. */
  ghost function LostFees(l: State, hs: seq<Happening>): nat {
    if hs == [] then 0
    else
      var before := StateAt(l, hs[..|hs| - 1]);
      LostFees(l, hs[..|hs| - 1])
      + match hs[|hs| - 1]
        case Elsewhere(_) => 0
        case Sent(d, fee, env) => if Apply(before, SubmissionOf(d.envelope), fee, env).Failed? then fee else 0
  }

  /** A failed submission moves nothing but its fee. */
  lemma FailureCostsTheFee(d: Deal, l: State, fee: nat, env: Env)
    requires Honest(d) && d.sponsorKey in l.accounts
    requires Apply(l, SubmissionOf(d.envelope), fee, env).Failed?
    ensures var l' := Apply(l, SubmissionOf(d.envelope), fee, env).after;
      && l'.lines == l.lines && l'.claimables == l.claimables && l'.sandwiches == l.sandwiches
      && l'.accounts.Keys == l.accounts.Keys
      && (forall a :: a in l.accounts ==>
            l'.accounts[a].(sequence := 0)
            == l.accounts[a].(sequence := 0, balance := l.accounts[a].balance - if a == d.sponsorKey then fee else 0))
  {
    hide Honest, SubmissionOf, Exec;
    FeeBounded(d);
  }

  lemma FailedSpendable(d: Deal, l: State, fee: nat, env: Env)
    requires Honest(d) && d.sponsorKey in l.accounts
    requires Apply(l, SubmissionOf(d.envelope), fee, env).Failed?
    ensures var l' := Apply(l, SubmissionOf(d.envelope), fee, env).after;
      d.sponsorKey in l'.accounts
      && Spendable(l', d.sponsorKey, env.baseReserve) == Spendable(l, d.sponsorKey, env.baseReserve) - fee
  {
    hide Honest, SubmissionOf, Apply, Spendable;
    FailureCostsTheFee(d, l, fee, env);
    var l' := Apply(l, SubmissionOf(d.envelope), fee, env).after;
    assert l'.accounts[d.sponsorKey].(sequence := 0)
        == l.accounts[d.sponsorKey].(sequence := 0, balance := l.accounts[d.sponsorKey].balance - fee);
    SpendableMoves(l, l', d.sponsorKey, 0 - fee, env.baseReserve);
  }

  /**
   * Over every history of submissions, other people's transactions and market moves in between,
   * what the sponsor can spend falls by no more than the fees of submissions that failed.
   */
  lemma {:induction false} SponsorLosesOnlyFailedFees(l: State, hs: seq<Happening>, sponsor: AccountId, base: nat)
    requires FairHistory(l, hs, sponsor, base)
    ensures sponsor in l.accounts && sponsor in StateAt(l, hs).accounts
    ensures Spendable(StateAt(l, hs), sponsor, base) >= Spendable(l, sponsor, base) - LostFees(l, hs)
  {
    hide Honest, SubmissionOf, Apply, Spendable;
    if hs == [] {
    } else {
      var front, h := hs[..|hs| - 1], hs[|hs| - 1];
      SponsorLosesOnlyFailedFees(l, front, sponsor, base);
      var before := StateAt(l, front);
      if h.Sent? {
        var r := Apply(before, SubmissionOf(h.deal.envelope), h.fee, h.env);
        if r.Succeeded? { AppliedNeverCosts(h.deal, before, h.fee, h.env); }
        if r.Failed? { FailedSpendable(h.deal, before, h.fee, h.env); }
      }
    }
  }

  // ---------- At most once ----------

  lemma ChargeSequences(l: State, s: Submission, fee: nat)
    requires s.tx.source in l.accounts && s.feePayer in l.accounts
    requires l.accounts[s.tx.source].sequence <= s.tx.sequence
    ensures SequencesRise(l, Charge(l, s, fee)) && s.tx.source in Charge(l, s, fee).accounts
    ensures Charge(l, s, fee).accounts[s.tx.source].sequence == s.tx.sequence
  {
  }

  /** Inclusion uses the sequence number up, whether the operations succeed or not. */
  lemma HappeningSequences(l: State, h: Happening, sponsor: AccountId, base: nat)
    requires sponsor in l.accounts && Fair(l, h, sponsor, base)
    ensures SequencesRise(l, AfterHappening(l, h))
    ensures Consumed(l, h) ==> var tx := SubmissionOf(h.deal.envelope).tx;
      tx.source in AfterHappening(l, h).accounts && AfterHappening(l, h).accounts[tx.source].sequence >= tx.sequence
  {
    hide Honest, SubmissionOf, Exec, Charge, Spendable;
    if h.Sent? && Consumed(l, h) {
      var s := SubmissionOf(h.deal.envelope);
      ChargeSequences(l, s, h.fee);
      var paid := Charge(l, s, h.fee);
      if Exec(paid, s.tx.ops, s.tx.source, h.env).Ok? { ExecKeepsSequences(paid, s.tx.ops, s.tx.source, h.env); }
    }
  }

  lemma {:induction false} SequenceFloor(l: State, hs: seq<Happening>, sponsor: AccountId, base: nat, i: nat)
    requires FairHistory(l, hs, sponsor, base) && i < |hs|
    requires sponsor in StateAt(l, hs[..i]).accounts && Consumed(StateAt(l, hs[..i]), hs[i])
    ensures var tx := SubmissionOf(hs[i].deal.envelope).tx;
      tx.source in StateAt(l, hs).accounts && StateAt(l, hs).accounts[tx.source].sequence >= tx.sequence
  {
    hide SubmissionOf, Consumed, AfterHappening, Fair;
    var front := hs[..|hs| - 1];
    HappeningSequences(StateAt(l, front), hs[|hs| - 1], sponsor, base);
    if i == |hs| - 1 {
      assert front == hs[..i];
    } else {
      assert front[..i] == hs[..i];
      SequenceFloor(l, front, sponsor, base, i);
    }
  }

  /**
   * One quote is collected on at most once: of two submissions of transactions with one source and
   * one sequence number, in any history, only the first can be included at all.
   */
  lemma AtMostOnce(l: State, hs: seq<Happening>, sponsor: AccountId, base: nat, i: nat, j: nat)
    requires FairHistory(l, hs, sponsor, base) && i < j < |hs|
    requires hs[i].Sent? && hs[j].Sent?
    requires SubmissionOf(hs[i].deal.envelope).tx.source == SubmissionOf(hs[j].deal.envelope).tx.source
    requires SubmissionOf(hs[i].deal.envelope).tx.sequence == SubmissionOf(hs[j].deal.envelope).tx.sequence
    ensures !(Consumed(StateAt(l, hs[..i]), hs[i]) && Consumed(StateAt(l, hs[..j]), hs[j]))
  {
    hide SubmissionOf, AfterHappening, Fair;
    if Consumed(StateAt(l, hs[..i]), hs[i]) {
      FairPrefix(l, hs, sponsor, base, j);
      FairPrefix(l, hs, sponsor, base, i);
      assert hs[..j][..i] == hs[..i] && hs[..j][i] == hs[i];
      SequenceFloor(l, hs[..j], sponsor, base, i);
    }
  }

  lemma {:induction false} FairPrefix(l: State, hs: seq<Happening>, sponsor: AccountId, base: nat, i: nat)
    requires FairHistory(l, hs, sponsor, base) && i <= |hs|
    ensures FairHistory(l, hs[..i], sponsor, base)
    ensures i < |hs| ==> sponsor in StateAt(l, hs[..i]).accounts
  {
    hide Fair, AfterHappening;
    if i < |hs| {
      var front := hs[..|hs| - 1];
      assert front[..i] == hs[..i];
      FairPrefix(l, front, sponsor, base, i);
      assert i == |hs| - 1 ==> hs[..i] == front;
    } else {
      assert hs[..i] == hs;
    }
  }

  lemma SameQuoteSameTx(d: Deal, d': Deal)
    requires Honest(d) && Honest(d') && d.q == d'.q
    ensures SubmissionOf(d.envelope).tx == SubmissionOf(d'.envelope).tx
  {
    hide Issued, Signed, SubmissionOf;
    FeeBounded(d);
    FeeBounded(d');
  }

  /** However often one quote is submitted, signed by whomever, it is included at most once. */
  lemma QuoteCollectedOnce(l: State, hs: seq<Happening>, sponsor: AccountId, base: nat, i: nat, j: nat)
    requires FairHistory(l, hs, sponsor, base) && i < j < |hs|
    requires hs[i].Sent? && hs[j].Sent? && hs[i].deal.q == hs[j].deal.q
    ensures !(Consumed(StateAt(l, hs[..i]), hs[i]) && Consumed(StateAt(l, hs[..j]), hs[j]))
  {
    hide SubmissionOf, AfterHappening, Honest, Consumed;
    FairAt(l, hs, sponsor, base, i);
    FairAt(l, hs, sponsor, base, j);
    SameQuoteSameTx(hs[i].deal, hs[j].deal);
    AtMostOnce(l, hs, sponsor, base, i, j);
  }

  lemma FairAt(l: State, hs: seq<Happening>, sponsor: AccountId, base: nat, i: nat)
    requires FairHistory(l, hs, sponsor, base) && i < |hs|
    ensures sponsor in StateAt(l, hs[..i]).accounts && Fair(StateAt(l, hs[..i]), hs[i], sponsor, base)
  {
    hide Fair, AfterHappening;
    FairPrefix(l, hs, sponsor, base, i + 1);
    assert hs[..i + 1][..i] == hs[..i];
  }
}
