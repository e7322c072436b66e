// What signing an accepted transaction can cost the user, whatever the service and the market do.
module SpendBound {
  import opened Prelude
  import opened Stellar
  import opened Names
  import opened Plans
  import opened Decimal
  import opened Build
  import opened Verify
  import opened Ledger
  import Agreement

  /** What one operation can take from its source in one asset. */
  function SpendOf(body: OpBody, asset: Asset): nat {
    match body
    case CreateAccount(_, funding) => if asset.Native? then Max(funding, 0) else 0
    case Payment(_, a, n) => if a == asset then Max(n, 0) else 0
    case PathStrictSend(a, n, _, _, _, _) => if a == asset then Max(n, 0) else 0
    case PathStrictReceive(a, n, _, _, _, _) => if a == asset then Max(n, 0) else 0
    case CreateClaimable(a, n, _) => if a == asset then Max(n, 0) else 0
    case _ => 0
  }

  /** `who` has at most `n` less of an asset than before. */
  ghost predicate AtMostLess(l: State, l': State, who: AccountId, asset: Asset, n: int) {
    BalanceOf(l', who, asset) >= BalanceOf(l, who, asset) - n
  }

  ghost predicate TakesAtMost(l: State, r: Outcome, who: AccountId, asset: Asset, n: int) {
    r.Ok? ==> AtMostLess(l, r.value, who, asset, n)
  }

  lemma MovesTake(l: State, src: AccountId, a: Asset, n: nat, units: nat, base: nat, who: AccountId, asset: Asset)
    ensures TakesAtMost(l, Debit(l, src, a, n, base), who, asset, if a == asset then n else 0)
    ensures TakesAtMost(l, Deposit(l, src, a, n), who, asset, 0)
    ensures TakesAtMost(l, Ledger.Sponsor(l, src, units, base), who, asset, 0)
    ensures AtMostLess(l, Unsponsor(l, src, units), who, asset, 0)
  {
    hide MinBalance;
  }

  lemma CreateTakes(l: State, src: AccountId, id: AccountId, funding: int, env: Env, who: AccountId, asset: Asset)
    ensures TakesAtMost(l, DoCreate(l, src, id, funding, env), who, asset, if asset.Native? then Max(funding, 0) else 0)
  {
    hide Debit, Ledger.Sponsor, MinBalance;
    if funding >= 0 && id !in l.accounts {
      MovesTake(l, src, Native, funding, 0, env.baseReserve, who, asset);
      var d := Debit(l, src, Native, funding, env.baseReserve);
      if d.Ok? {
        DebitAddsNoAccount(l, src, Native, funding, env.baseReserve, id);
        if id in l.sandwiches {
          var l1 := SetAccount(d.value, id, AccountEntry(funding, env.startingSequence, 0, 0, 2));
          MovesTake(l1, l.sandwiches[id], Native, 0, 2, env.baseReserve, who, asset);
        }
      }
    }
  }

  lemma DebitAddsNoAccount(l: State, src: AccountId, a: Asset, n: nat, base: nat, id: AccountId)
    requires Debit(l, src, a, n, base).Ok? && id !in l.accounts
    ensures id !in Debit(l, src, a, n, base).value.accounts
  {
    hide MinBalance;
  }

  lemma PayTakes(l: State, src: AccountId, to: AccountId, a: Asset, n: int, env: Env, who: AccountId, asset: Asset)
    ensures TakesAtMost(l, DoPay(l, src, to, a, n, env), who, asset, if a == asset then Max(n, 0) else 0)
  {
    hide Debit, Deposit, MinBalance;
    if n > 0 {
      MovesTake(l, to, a, n, 0, env.baseReserve, who, asset);
      var d := Deposit(l, to, a, n);
      if d.Ok? { MovesTake(d.value, src, a, n, 0, env.baseReserve, who, asset); }
    }
  }

  lemma StrictSendTakes(l: State, src: AccountId, body: OpBody, env: Env, k: nat, who: AccountId, asset: Asset)
    requires body.PathStrictSend?
    ensures TakesAtMost(l, DoStrictSend(l, src, body, env, k), who, asset, SpendOf(body, asset))
  {
    hide Debit, Deposit, Proceeds, MinBalance;
    if body.sendAmount > 0 && body.destMin > 0 {
      MovesTake(l, src, body.sendAsset, body.sendAmount, 0, env.baseReserve, who, asset);
      var d := Debit(l, src, body.sendAsset, body.sendAmount, env.baseReserve);
      var got := Proceeds(env, k, body.sendAsset, body.path, body.destAsset, body.sendAmount);
      if d.Ok? && got.Some? {
        MovesTake(d.value, body.destination, body.destAsset, got.value, 0, env.baseReserve, who, asset);
      }
    }
  }

  lemma StrictReceiveTakes(l: State, src: AccountId, body: OpBody, env: Env, k: nat, who: AccountId, asset: Asset)
    requires body.PathStrictReceive?
    ensures TakesAtMost(l, DoStrictReceive(l, src, body, env, k), who, asset, SpendOf(body, asset))
  {
    hide Debit, Deposit, Ledger.Cost, MinBalance;
    if body.sendMax > 0 && body.destAmount > 0 {
      MovesTake(l, body.destination, body.destAsset, body.destAmount, 0, env.baseReserve, who, asset);
      var d := Deposit(l, body.destination, body.destAsset, body.destAmount);
      var cost := Ledger.Cost(env, k, body.sendAsset, body.path, body.destAsset, body.destAmount);
      if d.Ok? && cost.Some? {
        MovesTake(d.value, src, body.sendAsset, cost.value, 0, env.baseReserve, who, asset);
      }
    }
  }

  lemma ClaimTakes(l: State, src: AccountId, id: BalanceId, env: Env, who: AccountId, asset: Asset)
    ensures TakesAtMost(l, DoClaim(l, src, id, env), who, asset, 0)
  {
    hide Deposit, Unsponsor, MayClaim;
    if id in l.claimables && l.claimables[id].amount >= 0 {
      var entry := l.claimables[id];
      MovesTake(l, src, entry.asset, entry.amount, 0, env.baseReserve, who, asset);
      var d := Deposit(l, src, entry.asset, entry.amount);
      if d.Ok? {
        var l1 := d.value.(claimables := d.value.claimables - {id});
        MovesTake(l1, entry.sponsor, Native, 0, |entry.claimants|, env.baseReserve, who, asset);
      }
    }
  }

  /** Closing a trustline needs its balance at zero, so even that takes nothing away. */
  lemma TrustTakes(l: State, src: AccountId, a: Asset, limit: int, env: Env, who: AccountId, asset: Asset)
    requires src in l.accounts
    ensures TakesAtMost(l, DoTrust(l, src, a, limit, env), who, asset, 0)
  {
    hide MinBalance;
  }

  lemma LeaveTakes(l: State, src: AccountId, a: Asset, n: int, claimants: seq<Claimant>, env: Env, k: nat,
                   who: AccountId, asset: Asset)
    ensures TakesAtMost(l, DoLeave(l, src, a, n, claimants, env, k), who, asset, if a == asset then Max(n, 0) else 0)
  {
    hide Debit, Ledger.Sponsor, Destinations, MinBalance;
    if n > 0 {
      MovesTake(l, src, a, n, 0, env.baseReserve, who, asset);
      var d := Debit(l, src, a, n, env.baseReserve);
      if d.Ok? {
        var carrier := if src in l.sandwiches then l.sandwiches[src] else src;
        var entry := ClaimableEntry(a, n, multiset(claimants), env.closeTime, carrier);
        var l1 := d.value.(claimables := d.value.claimables[env.freshId(k) := entry]);
        MovesTake(l1, carrier, Native, 0, |claimants|, env.baseReserve, who, asset);
      }
    }
  }

  /** Whoever sources it and whatever the market answers, an operation takes at most what it names. */
  lemma StepTakes(l: State, body: OpBody, src: AccountId, env: Env, k: nat, who: AccountId, asset: Asset)
    ensures TakesAtMost(l, Step(l, body, src, env, k), who, asset, SpendOf(body, asset))
  {
    hide DoCreate, DoPay, DoStrictSend, DoStrictReceive, DoClaim, DoTrust, DoLeave;
    if src in l.accounts {
      match body
      case CreateAccount(id, funding) => CreateTakes(l, src, id, funding, env, who, asset);
      case Payment(to, a, n) => PayTakes(l, src, to, a, n, env, who, asset);
      case PathStrictSend(_, _, _, _, _, _) => StrictSendTakes(l, src, body, env, k, who, asset);
      case PathStrictReceive(_, _, _, _, _, _) => StrictReceiveTakes(l, src, body, env, k, who, asset);
      case ClaimClaimable(id) => ClaimTakes(l, src, id, env, who, asset);
      case ChangeTrust(AssetLine(a), limit) => TrustTakes(l, src, a, limit, env, who, asset);
      case CreateClaimable(a, n, claimants) => LeaveTakes(l, src, a, n, claimants, env, k, who, asset);
      case _ =>
    }
  }

  function OpsSpend(ops: seq<Operation>, asset: Asset): nat {
    if ops == [] then 0 else OpsSpend(ops[..|ops| - 1], asset) + SpendOf(ops[|ops| - 1].body, asset)
  }

  lemma {:induction false} ExecTakes(l: State, ops: seq<Operation>, txSource: AccountId, env: Env,
                                     who: AccountId, asset: Asset)
    ensures TakesAtMost(l, Exec(l, ops, txSource, env), who, asset, OpsSpend(ops, asset))
  {
    hide Step, BalanceOf, SpendOf;
    if ops == [] {
    } else {
      var front, op := ops[..|ops| - 1], ops[|ops| - 1];
      ExecTakes(l, front, txSource, env, who, asset);
      var r := Exec(l, front, txSource, env);
      if r.Ok? { StepTakes(r.value, op.body, EffectiveSource(op, txSource), env, |ops| - 1, who, asset); }
    }
  }

  // ---------- What the request names ----------

  function Stroops(text: string): nat { if ToStroops(text).Some? then Max(ToStroops(text).value, 0) else 0 }

  /** What a requested operation says will leave the user, in one asset. */
  function Named(op: UserOp, asset: Asset): nat {
    match op
    case Pay(_, a, amount) => if AssetOf(a) == Some(asset) then Stroops(amount) else 0
    case Swap(_, a, amount, _, _, _) => if AssetOf(a) == Some(asset) then Stroops(amount) else 0
    case Leave(_, a, amount) => if AssetOf(a) == Some(asset) then Stroops(amount) else 0
    case _ => 0
  }

  function NamedTotal(ops: seq<UserOp>, asset: Asset): nat {
    if ops == [] then 0 else NamedTotal(ops[..|ops| - 1], asset) + Named(ops[|ops| - 1], asset)
  }

  lemma ShownAtMost(x: int, text: string)
    requires ShowsAmount(x, text)
    ensures Max(x, 0) <= Stroops(text)
  {
    hide ToStroops;
    RenderedReadsAsShown(x);
  }

  lemma VerifiedSpend(body: OpBody, want: UserOp, source: Address, asset: Asset)
    requires VerifyOp(body, want, source)
    ensures SpendOf(body, asset) <= Named(want, asset)
  {
    hide ShowsAmount, AssetOf, SameRoute, PairNames, Stroops;
    match want
    case Create(_) => Agreement.ShownZero(body.startingBalance);
    case Pay(_, _, amount) => ShownAtMost(body.amount, amount);
    case Swap(_, _, amount, _, _, _) => ShownAtMost(body.sendAmount, amount);
    case Leave(_, _, amount) => ShownAtMost(body.amount, amount);
    case _ =>
  }

  lemma {:induction false} OpsSpendConcat(a: seq<Operation>, b: seq<Operation>, asset: Asset)
    ensures OpsSpend(a + b, asset) == OpsSpend(a, asset) + OpsSpend(b, asset)
  {
    if b == [] {
      assert a + b == a;
    } else {
      var b0 := b[..|b| - 1];
      OpsSpendConcat(a, b0, asset);
      assert (a + b)[..|a + b| - 1] == a + b0;
    }
  }

  lemma {:induction false} UserOpsSpend(ops: seq<Operation>, requested: seq<UserOp>, source: Address, asset: Asset)
    requires |ops| == |requested|
    requires forall i :: 0 <= i < |requested| ==> UserOpMatches(ops[i], requested[i], source)
    ensures OpsSpend(ops, asset) <= NamedTotal(requested, asset)
  {
    hide VerifyOp, Named, SpendOf;
    if ops == [] {
    } else {
      var n := |ops| - 1;
      assert forall i :: 0 <= i < n ==> ops[..n][i] == ops[i] && requested[..n][i] == requested[i];
      UserOpsSpend(ops[..n], requested[..n], source, asset);
      assert UserOpMatches(ops[n], requested[n], source);
      VerifiedSpend(ops[n].body, requested[n], source, asset);
    }
  }

  /** The fee payment takes at most the caller's own ceiling, and only in the caller's fee token. */
  lemma FeeSpend(op: Operation, p: Quote, r: Request, e: Expectations, asset: Asset)
    requires PaysFee(op, p) && QuoteAnswers(p, r, e)
    ensures SpendOf(op.body, asset)
         <= if AssetOf(r.feeToken) == Some(asset) then StroopsOf(r.maxSendStroops).value else 0
  {
    hide AssetOf, SameRoute, SameOp, FormatStroops, ShowsAmount, SourceIs;
    Agreement.ShownRendered(op.body.sendMax, p.sendMaxStroops);
  }

  lemma EdgesSpendNothing(op: Operation, asset: Asset)
    requires op.body.BeginSponsoring? || op.body.EndSponsoring?
    ensures SpendOf(op.body, asset) == 0
  {
  }

  /** The caller's own number, in the caller's fee token and in nothing else. */
  function FeeCeiling(r: Request, n: nat, asset: Asset): nat { if AssetOf(r.feeToken) == Some(asset) then n else 0 }

  lemma SingleSpend(op: Operation, asset: Asset)
    ensures OpsSpend([op], asset) == SpendOf(op.body, asset)
  {
    assert [op][..0] == [];
  }

  lemma AcceptedSpend(tx: Transaction, p: Quote, r: Request, e: Expectations, n: nat, asset: Asset)
    requires QuoteAnswers(p, r, e) && Matches(tx, p, r.ops) && CeilingSays(r.maxSendStroops, n)
    ensures OpsSpend(tx.ops, asset) <= NamedTotal(r.ops, asset) + FeeCeiling(r, n, asset)
  {
    hide PaysFee, UserOpMatches, QuoteAnswers, SpendOf, AssetOf, StroopsOf, OpsSpend, NamedTotal, CeilingSays;
    CeilingReads(r.maxSendStroops, n);
    var s, m := p.First(), |r.ops|;
    var body := tx.ops[s..s + m];
    forall i | 0 <= i < m ensures UserOpMatches(body[i], r.ops[i], p.source) {
      assert body[i] == tx.ops[s + i];
    }
    UserOpsSpend(body, r.ops, p.source, asset);
    var fee := tx.ops[|tx.ops| - 1];
    FeeSpend(fee, p, r, e, asset);
    SingleSpend(fee, asset);
    if p.Sandwiched() {
      var first, last := tx.ops[0], tx.ops[m + 1];
      EdgesSpendNothing(first, asset);
      EdgesSpendNothing(last, asset);
      SingleSpend(first, asset);
      SingleSpend(last, asset);
      assert tx.ops == ([first] + body) + ([last] + [fee]);
      OpsSpendConcat([first] + body, [last] + [fee], asset);
      OpsSpendConcat([first], body, asset);
      OpsSpendConcat([last], [fee], asset);
    } else {
      assert tx.ops == body + [fee];
      OpsSpendConcat(body, [fee], asset);
    }
  }

  /** Nothing is accepted whose ceiling says nothing. */
  lemma AcceptedHasCeiling(tx: Transaction, signatures: seq<Signature>, p: Quote, r: Request, e: Expectations)
    requires Accepts(Plain(TxEnvelope(tx, signatures)), p, r, e)
    ensures exists n :: CeilingSays(r.maxSendStroops, n)
    ensures forall m, n :: CeilingSays(r.maxSendStroops, m) && CeilingSays(r.maxSendStroops, n) ==> m == n
  {
    hide Matches, SdkReads, SameOp, AssetOf, CeilingSays;
    CeilingReads(r.maxSendStroops, StroopsOf(r.maxSendStroops).value);
    forall m, n | CeilingSays(r.maxSendStroops, m) && CeilingSays(r.maxSendStroops, n) ensures m == n {
      CeilingReads(r.maxSendStroops, m);
      CeilingReads(r.maxSendStroops, n);
    }
  }

  /**
   * The spend bound. Take any payload the service may have invented and any transaction that the
   * checker hands back for signing against the user's own request. Run its operations on any ledger,
   * against any market: in each asset the user ends up at most the sum named by the request's own
   * operations short, plus, in the fee token, the number `n` its ceiling says.
   */
  lemma AcceptedSpendsOnlyWhatWasNamed(tx: Transaction, signatures: seq<Signature>, p: Quote, r: Request,
                                       e: Expectations, n: nat, l: State, env: Env, user: AccountId, asset: Asset)
    requires Accepts(Plain(TxEnvelope(tx, signatures)), p, r, e) && CeilingSays(r.maxSendStroops, n)
    ensures Exec(l, tx.ops, tx.source, env).Ok? ==>
      BalanceOf(l, user, asset) - BalanceOf(Exec(l, tx.ops, tx.source, env).value, user, asset)
      <= NamedTotal(r.ops, asset) + FeeCeiling(r, n, asset)
  {
    hide QuoteAnswers, Matches, BalanceOf, OpsSpend, Exec, SdkReads, CeilingSays;
    AcceptedSpend(tx, p, r, e, n, asset);
    ExecTakes(l, tx.ops, tx.source, env, user, asset);
  }

  /** On the chain the network fee comes on top, if the user's own account is made to pay it. */
  lemma AcceptedTotalCost(tx: Transaction, signatures: seq<Signature>, p: Quote, r: Request, e: Expectations, n: nat,
                          l: State, s: Submission, fee: nat, env: Env, user: AccountId, asset: Asset)
    requires Accepts(Plain(TxEnvelope(tx, signatures)), p, r, e) && s.tx == tx && CeilingSays(r.maxSendStroops, n)
    requires !Apply(l, s, fee, env).Rejected?
    ensures BalanceOf(l, user, asset) - BalanceOf(Apply(l, s, fee, env).after, user, asset)
         <= NamedTotal(r.ops, asset) + FeeCeiling(r, n, asset)
            + if user == s.feePayer && asset.Native? then s.feeBid else 0
  {
    hide Accepts, Exec, NamedTotal, FeeCeiling, MinBalance, CeilingSays;
    AcceptedSpendsOnlyWhatWasNamed(tx, signatures, p, r, e, n, Charge(l, s, fee), env, user, asset);
  }
}
