// A bootstrap quote pays for itself: what the new account claims is in its hands when the fee is due.
module BootstrapFunding {
  import opened Prelude
  import opened Stellar
  import opened Names
  import opened Plans
  import opened Decimal
  import opened Build
  import opened Claims
  import opened OpenClaims
  import opened Ledger
  import opened SpendBound

  predicate OnlyClaims(ops: seq<UserOp>) {
    forall i :: 0 <= i < |ops| ==> ops[i].Create? || ops[i].Trust? || ops[i].Claim?
  }

  lemma ClaimStep(l: State, id: BalanceId, user: AccountId, env: Env, k: nat, asset: Asset)
    requires Step(l, ClaimClaimable(id), user, env, k).Ok?
    ensures var l' := Step(l, ClaimClaimable(id), user, env, k).value;
      && id in l.claimables && l'.claimables == l.claimables - {id} && l.claimables[id].amount >= 0
      && BalanceOf(l', user, asset)
         >= BalanceOf(l, user, asset)
            + if l.claimables[id].asset == asset && !IssuedBy(asset, user) then l.claimables[id].amount else 0
  {
    hide MayClaim;
  }

  lemma OtherStep(l: State, body: OpBody, src: AccountId, env: Env, k: nat, user: AccountId, asset: Asset)
    requires (body.CreateAccount? && body.startingBalance == 0) || body.ChangeTrust? || body.BeginSponsoring?
    requires Step(l, body, src, env, k).Ok?
    ensures var l' := Step(l, body, src, env, k).value;
      l'.claimables == l.claimables && BalanceOf(l', user, asset) >= BalanceOf(l, user, asset)
  {
    hide MinBalance, BalanceOf;
    StepTakes(l, body, src, env, k, user, asset);
  }

  lemma ArrivingStep(horizon: Horizon, ops: seq<UserOp>, i: nat, need: Option<ClaimNeed>)
    requires i < |ops|
    ensures Arriving(horizon, ops[..i + 1], need)
         == Arriving(horizon, ops[..i], need)
            + if InNeeded(horizon, ops[i], need) && ParseAmountStroops(horizon(ops[i].balanceId).record.amount).Some?
              then Max(ParseAmountStroops(horizon(ops[i].balanceId).record.amount).value, 0) else 0
  {
    hide InNeeded, ParseAmountStroops;
    assert ops[..i + 1][..i] == ops[..i];
  }

  lemma ProgressStep(l0: State, l: State, horizon: Horizon, q: Quote, op: Operation, i: nat, txSource: AccountId,
                     asset: Asset, need: Option<ClaimNeed>, env: Env, k: nat)
    requires Shows(horizon, l0) && OnlyClaims(q.ops) && i < |q.ops|
    requires q.source.Strkey? && q.mode.Bootstrap? && !IssuedBy(asset, q.source.id)
    requires need.Some? && need.value.asset == Canonical(asset)
    requires UserSource(q).Ok? && UserOperation(q, UserSource(q).value, q.ops[i]) == Ok(op)
    requires Step(l, op.body, EffectiveSource(op, txSource), env, k).Ok?
    requires forall b :: b in l.claimables && b in l0.claimables ==> l.claimables[b] == l0.claimables[b]
    requires BalanceOf(l, q.source.id, asset) >= Arriving(horizon, q.ops[..i], need)
    ensures BalanceOf(Step(l, op.body, EffectiveSource(op, txSource), env, k).value, q.source.id, asset)
         >= Arriving(horizon, q.ops[..i + 1], need)
  {
    hide Step, BalanceOf, XdrAsset, Amount, FormatStroops, ParseAmountStroops, Arriving, Canonical;
    ArrivingStep(horizon, q.ops, i, need);
    var user := q.source.id;
    if q.ops[i].Claim? {
      ClaimStep(l, ParseBalanceId(q.ops[i].balanceId).value, user, env, k, asset);
      ClaimCounts(l0, horizon, q.ops[i], asset, need);
    } else {
      OtherStep(l, op.body, EffectiveSource(op, txSource), env, k, user, asset);
    }
  }

  /** A counted claim counts what the ledger holds. */
  lemma ClaimCounts(l: State, horizon: Horizon, op: UserOp, asset: Asset, need: Option<ClaimNeed>)
    requires Shows(horizon, l) && op.Claim? && ParseBalanceId(op.balanceId).Some?
    requires need.Some? && need.value.asset == Canonical(asset)
    ensures InNeeded(horizon, op, need) && ParseAmountStroops(horizon(op.balanceId).record.amount).Some? ==>
      var b := ParseBalanceId(op.balanceId).value;
      && b in l.claimables && l.claimables[b].asset == asset
      && l.claimables[b].amount >= 0
      && ParseAmountStroops(horizon(op.balanceId).record.amount).value == l.claimables[b].amount
  {
    hide FormatStroops, ParseAmountStroops;
    if InNeeded(horizon, op, need) {
      var entry := l.claimables[ParseBalanceId(op.balanceId).value];
      FormatParseRoundTrip(entry.amount);
      CanonicalInjective(entry.asset, asset);
    }
  }

  lemma CanonicalInjective(a: Asset, b: Asset)
    ensures Canonical(a) == Canonical(b) <==> a == b
  {
  }

  /** Such a list leaves no balances of its own, so no id can come back. */
  lemma NothingLeft(q: Quote, tx: Transaction, k: nat)
    requires HasShape(q, tx) && OnlyClaims(q.ops) && k <= q.First() + |q.ops| && k <= |tx.ops|
    ensures forall i :: 0 <= i < k ==> !tx.ops[..k][i].body.CreateClaimable?
  {
    hide XdrAsset, Amount, ParseBalanceId, FeeOp;
    forall i | 0 <= i < k ensures !tx.ops[i].body.CreateClaimable? {
      if q.First() <= i {
        assert UserOperation(q, UserSource(q).value, q.ops[i - q.First()])
            == Ok(tx.ops[q.First() + (i - q.First())]);
      }
    }
  }

  /**
   * After each operation that has run, the new account holds at least what its claims so far were
   * counted for.
   */
  lemma {:induction false} ClaimsArrive(l0: State, horizon: Horizon, q: Quote, tx: Transaction, i: nat, asset: Asset,
                                        need: Option<ClaimNeed>, env: Env)
    requires Shows(horizon, l0) && OnlyClaims(q.ops) && i <= |q.ops|
    requires HasShape(q, tx) && q.source.Strkey? && q.mode.Bootstrap? && !IssuedBy(asset, q.source.id)
    requires need.Some? && need.value.asset == Canonical(asset)
    requires BalanceOf(l0, q.source.id, asset) >= 0
    requires Exec(l0, tx.ops[..q.First() + i], tx.source, env).Ok?
    ensures BalanceOf(Exec(l0, tx.ops[..q.First() + i], tx.source, env).value, q.source.id, asset)
         >= Arriving(horizon, q.ops[..i], need)
  {
    hide Step, BalanceOf, UserOperation, FeeOp, EndOp, Shows;
    var s := q.First();
    if i > 0 {
      var k := s + i - 1;
      assert tx.ops[..s + i][..k] == tx.ops[..k] && tx.ops[..s + i][k] == tx.ops[k];
      ClaimsArrive(l0, horizon, q, tx, i - 1, asset, need, env);
      assert UserOperation(q, UserSource(q).value, q.ops[i - 1]) == Ok(tx.ops[s + (i - 1)]);
      NothingLeft(q, tx, k);
      ExecClaims(l0, tx.ops[..k], tx.source, env);
      ProgressStep(l0, Exec(l0, tx.ops[..k], tx.source, env).value, horizon, q, tx.ops[k], i - 1, tx.source,
                   asset, need, env, k);
    } else if s == 1 {
      assert tx.ops[..1][..0] == [];
      assert Exec(l0, tx.ops[..1][..0], tx.source, env) == Ok(l0);
      assert BeginOp(q) == Ok(tx.ops[0]);
      OtherStep(l0, tx.ops[0].body, EffectiveSource(tx.ops[0], tx.source), env, 0, q.source.id, asset);
    } else {
      assert tx.ops[..0] == [];
    }
  }

  /**
   * If the claims were checked against the ledger a bootstrap quote is applied to, and the operations
   * before the fee run, then by the time the fee is due the new account holds at least `sendMax` of the fee token.
   */
  lemma NewAccountCanPay(l0: State, horizon: Horizon, q: Quote, tx: Transaction, asset: Asset, now: int, env: Env)
    requires Built(q) == Ok(tx) && tx.ops != [] && q.mode.Bootstrap? && q.feeToken == Canonical(asset)
    requires SomeClaim(q.ops) && OnlyClaims(q.ops) && Shows(horizon, l0)
    requires ClaimsSuffice(horizon, q.source, q.ops, q.mode, now, NeedFor(q.mode, q.feeToken, q.sendMaxStroops))
    requires q.source.Strkey? && !IssuedBy(asset, q.source.id) && BalanceOf(l0, q.source.id, asset) >= 0
    requires Exec(l0, tx.ops[..|tx.ops| - 1], tx.source, env).Ok?
    ensures BalanceOf(Exec(l0, tx.ops[..|tx.ops| - 1], tx.source, env).value, q.source.id, asset) >= q.sendMaxStroops
  {
    hide Step, BalanceOf, UserOperation, FeeOp, Shows, ClaimOpen, Arriving, SomeClaim, SomeNeeded;
    hide Built, BeginOp, EndOp;
    BuiltHasShape(q);
    var need := NeedFor(q.mode, q.feeToken, q.sendMaxStroops);
    var s, n := q.First(), |q.ops|;
    var front := tx.ops[..|tx.ops| - 1];
    if s == 1 {
      assert front[|front| - 1] == tx.ops[n + 1] && front[..|front| - 1] == tx.ops[..s + n];
      EndMovesNothing(q, tx, Exec(l0, tx.ops[..s + n], tx.source, env).value, env, asset);
    } else {
      assert front == tx.ops[..s + n];
    }
    ClaimsArrive(l0, horizon, q, tx, n, asset, need, env);
    assert q.ops[..n] == q.ops;
  }

  lemma EndMovesNothing(q: Quote, tx: Transaction, l: State, env: Env, asset: Asset)
    requires HasShape(q, tx) && q.Sandwiched() && q.source.Strkey?
    ensures var op := tx.ops[|q.ops| + 1];
      var r := Step(l, op.body, EffectiveSource(op, tx.source), env, |q.ops| + 1);
      r.Ok? ==> BalanceOf(r.value, q.source.id, asset) == BalanceOf(l, q.source.id, asset)
  {
    hide UserOperation, FeeOp, BeginOp;
    assert EndOp(q) == Ok(tx.ops[|q.ops| + 1]);
  }
}
