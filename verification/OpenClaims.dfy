// Claims that were checked, on the ledger they were checked against: which of them can still fail.
module OpenClaims {
  import opened Prelude
  import opened Stellar
  import opened Names
  import opened Plans
  import opened Decimal
  import opened Build
  import opened Claims
  import opened Ledger
  import Claimants
  import Predicates
  import Runs

  /** What Horizon answers is what is on the ledger. */
  ghost predicate Shows(horizon: Horizon, l: State) {
    forall id :: horizon(id).Found? ==>
      && ParseBalanceId(id).Some? && ParseBalanceId(id).value in l.claimables
      && var entry := l.claimables[ParseBalanceId(id).value];
         horizon(id).record.asset == Canonical(entry.asset) && horizon(id).record.amount == FormatStroops(entry.amount)
         && 0 <= entry.amount <= I64_MAX
  }

  // ---------- Horizon's answer is the ledger's ----------

  /** One claimant, as Horizon renders it. */
  ghost predicate Stands(shown: HorizonClaimant, c: Claimant) {
    shown.destination == Strkey(c.destination) && Predicates.Renders(shown.condition, c.condition)
    && Predicates.Height(c.condition) <= Predicates.DEPTH_CAP + 1
  }

  /** A record shows the entry's claimants, all of them and no others, and when it was made. */
  ghost predicate ShowsEntry(record: ClaimableRecord, entry: ClaimableEntry) {
    && CreatedAt(record) == Some(entry.created)
    && (forall c :: c in entry.claimants ==> IsShown(record, c))
    && (forall i :: 0 <= i < |record.claimants| ==> IsOneOf(record.claimants[i], entry))
  }

  ghost predicate IsShown(record: ClaimableRecord, c: Claimant) {
    exists i :: 0 <= i < |record.claimants| && Stands(record.claimants[i], c)
  }

  ghost predicate IsOneOf(shown: HorizonClaimant, entry: ClaimableEntry) {
    exists c :: c in entry.claimants && Stands(shown, c)
  }

  /**
   * What the service answers from Horizon's record, strings and all, is what the ledger decides from
   * the entry: an account passes `claimable_by` exactly when its claim would be allowed.
   */
  lemma AnswerIsTheLedgers(record: ClaimableRecord, entry: ClaimableEntry, who: AccountId, now: int)
    requires ShowsEntry(record, entry)
    ensures ClaimableBy(record, Strkey(who), now) <==> MayClaim(entry, who, now)
  {
    hide Predicates.HoldsAt, Predicates.Holds, Stands, CreatedAt, IsShown, IsOneOf;
    if ClaimableBy(record, Strkey(who), now) {
      var i :| 0 <= i < |record.claimants| && record.claimants[i].destination == Strkey(who)
               && Predicates.HoldsAt(record.claimants[i].condition, now, CreatedAt(record), 0);
      var c := TheEntry(record.claimants[i], entry);
      SameAnswer(record.claimants[i], c, now, entry.created);
      assert MayClaim(entry, who, now);
    }
    if MayClaim(entry, who, now) {
      var c :| c in entry.claimants && c.destination == who && Predicates.Holds(c.condition, now, entry.created);
      var i := TheShown(record, c);
      SameAnswer(record.claimants[i], c, now, entry.created);
    }
  }

  lemma TheEntry(shown: HorizonClaimant, entry: ClaimableEntry) returns (c: Claimant)
    requires IsOneOf(shown, entry)
    ensures c in entry.claimants && Stands(shown, c)
  {
    c :| c in entry.claimants && Stands(shown, c);
  }

  lemma TheShown(record: ClaimableRecord, c: Claimant) returns (i: nat)
    requires IsShown(record, c)
    ensures i < |record.claimants| && Stands(record.claimants[i], c)
  {
    i :| 0 <= i < |record.claimants| && Stands(record.claimants[i], c);
  }

  lemma SameAnswer(shown: HorizonClaimant, c: Claimant, now: int, created: int)
    requires Stands(shown, c)
    ensures shown.destination == Strkey(c.destination)
    ensures Predicates.HoldsAt(shown.condition, now, Some(created), 0) <==> Predicates.Holds(c.condition, now, created)
  {
    hide Predicates.HoldsAt, Predicates.Holds, Predicates.Renders;
    Predicates.EvaluatesCap23(shown.condition, c.condition, now, created, 0);
  }

  /**
   * The pair every balance is left with, through the service's eyes: `claimable_by` lets the
   * destination claim at any time, the sender from seven days on, and nobody else ever.
   */
  lemma PairAnswered(record: ClaimableRecord, entry: ClaimableEntry, source: AccountId, destination: AccountId,
                     who: AccountId, now: int)
    requires source != destination && IsI64(entry.created + 604_800)
    requires entry.claimants == multiset(Claimants.ClaimantPair(source, destination)) && ShowsEntry(record, entry)
    ensures ClaimableBy(record, Strkey(who), now)
       <==> who == destination || (who == source && now >= entry.created + 604_800)
  {
    hide ClaimableBy, ShowsEntry, Predicates.Holds, Claimants.ClaimantPair;
    AnswerIsTheLedgers(record, entry, who, now);
    Predicates.PairClaimable(source, destination, who, now, entry.created);
    var pair := Claimants.ClaimantPair(source, destination);
    assert forall c :: c in entry.claimants <==> c in pair;
    if MayClaim(entry, who, now) {
      var c :| c in pair && c.destination == who && Predicates.Holds(c.condition, now, entry.created);
      var i :| 0 <= i < |pair| && pair[i] == c;
      assert Predicates.CanClaim(pair, who, now, entry.created);
    }
    if Predicates.CanClaim(pair, who, now, entry.created) {
      var i :| 0 <= i < |pair| && pair[i].destination == who && Predicates.Holds(pair[i].condition, now, entry.created);
      assert pair[i] in entry.claimants;
    }
  }

  /** Every record Horizon has shows its entry. */
  ghost predicate ShowsEntries(horizon: Horizon, l: State) {
    forall id :: horizon(id).Found? && ParseBalanceId(id).Some? && ParseBalanceId(id).value in l.claimables ==>
      ShowsEntry(horizon(id).record, l.claimables[ParseBalanceId(id).value])
  }

  // ---------- What a list of operations does to the balances that were there ----------

  predicate ClaimedIn(ops: seq<Operation>, b: BalanceId) {
    exists i :: 0 <= i < |ops| && ops[i].body == ClaimClaimable(b)
  }

  /** A new balance gets an id of its own. */
  predicate FreshIds(ops: seq<Operation>, env: Env, l: State) {
    && (forall i :: 0 <= i < |ops| && ops[i].body.CreateClaimable? ==> env.freshId(i) !in l.claimables)
    && (forall i, j :: 0 <= i < j < |ops| && ops[i].body.CreateClaimable? && ops[j].body.CreateClaimable? ==>
          env.freshId(i) != env.freshId(j))
  }

  lemma MovesKeepClaimables(l: State, who: AccountId, asset: Asset, n: nat, base: nat)
    ensures Debit(l, who, asset, n, base).Ok? ==> Debit(l, who, asset, n, base).value.claimables == l.claimables
    ensures Deposit(l, who, asset, n).Ok? ==> Deposit(l, who, asset, n).value.claimables == l.claimables
    ensures Ledger.Sponsor(l, who, n, base).Ok? ==> Ledger.Sponsor(l, who, n, base).value.claimables == l.claimables
    ensures Unsponsor(l, who, n).claimables == l.claimables
  {
    hide MinBalance;
  }

  lemma PaymentsKeepClaimables(l: State, body: OpBody, src: AccountId, env: Env, k: nat)
    requires body.Payment? || body.PathStrictSend? || body.PathStrictReceive?
    requires Step(l, body, src, env, k).Ok?
    ensures Step(l, body, src, env, k).value.claimables == l.claimables
  {
    hide Debit, Deposit, Ledger.Cost, Proceeds;
    forall m: State, who, asset, n: nat
      ensures var d := Debit(m, who, asset, n, env.baseReserve); d.Ok? ==> d.value.claimables == m.claimables
      ensures var d := Deposit(m, who, asset, n); d.Ok? ==> d.value.claimables == m.claimables
    {
      MovesKeepClaimables(m, who, asset, n, env.baseReserve);
    }
  }

  lemma EntriesKeepClaimables(l: State, body: OpBody, src: AccountId, env: Env, k: nat)
    requires body.CreateAccount? || body.ChangeTrust? || body.BeginSponsoring? || body.EndSponsoring?
    requires Step(l, body, src, env, k).Ok?
    ensures Step(l, body, src, env, k).value.claimables == l.claimables
  {
    hide MinBalance;
  }

  lemma StepClaims(l: State, body: OpBody, src: AccountId, env: Env, k: nat)
    requires Step(l, body, src, env, k).Ok?
    ensures var after := Step(l, body, src, env, k).value.claimables;
      && (body.ClaimClaimable? ==> body.balanceId in l.claimables && after == l.claimables - {body.balanceId})
      && (body.CreateClaimable? ==> forall b :: b != env.freshId(k) ==>
            (b in after <==> b in l.claimables) && (b in after ==> after[b] == l.claimables[b]))
      && (!body.ClaimClaimable? && !body.CreateClaimable? ==> after == l.claimables)
  {
    hide MayClaim, MinBalance, Destinations, DoPay, DoStrictSend, DoStrictReceive, DoCreate, DoTrust, DoBegin, DoEnd;
    match body
    case ClaimClaimable(_) =>
    case CreateClaimable(_, _, _) =>
    case OtherOperation(_) =>
    case Payment(_, _, _) => PaymentsKeepClaimables(l, body, src, env, k);
    case PathStrictSend(_, _, _, _, _, _) => PaymentsKeepClaimables(l, body, src, env, k);
    case PathStrictReceive(_, _, _, _, _, _) => PaymentsKeepClaimables(l, body, src, env, k);
    case _ => EntriesKeepClaimables(l, body, src, env, k);
  }

  /** Of the balances that were there at the start, exactly the claimed ones are gone; the others are unchanged. */
  ghost predicate Remaining(l0: State, l: State, ops: seq<Operation>) {
    forall b :: b in l0.claimables ==>
      && (b in l.claimables <==> !ClaimedIn(ops, b))
      && (b in l.claimables ==> l.claimables[b] == l0.claimables[b])
  }

  lemma ClaimedOneMore(ops: seq<Operation>, b: BalanceId)
    requires ops != []
    ensures ClaimedIn(ops, b) <==> ClaimedIn(ops[..|ops| - 1], b) || ops[|ops| - 1].body == ClaimClaimable(b)
  {
    var front := ops[..|ops| - 1];
    if ClaimedIn(front, b) {
      var i :| 0 <= i < |front| && front[i].body == ClaimClaimable(b);
      assert ops[i].body == ClaimClaimable(b);
    }
    if ClaimedIn(ops, b) && ops[|ops| - 1].body != ClaimClaimable(b) {
      var i :| 0 <= i < |ops| && ops[i].body == ClaimClaimable(b);
      assert front[i].body == ClaimClaimable(b);
    }
  }

  lemma {:induction false} ExecClaims(l: State, ops: seq<Operation>, txSource: AccountId, env: Env)
    requires FreshIds(ops, env, l) && Exec(l, ops, txSource, env).Ok?
    ensures Remaining(l, Exec(l, ops, txSource, env).value, ops)
  {
    hide Step, ClaimedIn;
    if ops == [] {
      assert forall b :: !ClaimedIn([], b) by { NothingClaimed(); }
    } else {
      var n := |ops| - 1;
      assert forall i :: 0 <= i < n ==> ops[..n][i] == ops[i];
      ExecClaims(l, ops[..n], txSource, env);
      var m := Exec(l, ops[..n], txSource, env).value;
      StepClaims(m, ops[n].body, EffectiveSource(ops[n], txSource), env, n);
      forall b | b in l.claimables
        ensures var after := Exec(l, ops, txSource, env).value.claimables;
          (b in after <==> !ClaimedIn(ops, b)) && (b in after ==> after[b] == l.claimables[b])
      {
        ClaimedOneMore(ops, b);
      }
    }
  }

  /** There at the start, or left by one of the operations. */
  predicate EverThere(l: State, ops: seq<Operation>, env: Env, b: BalanceId) {
    b in l.claimables || exists i :: 0 <= i < |ops| && ops[i].body.CreateClaimable? && env.freshId(i) == b
  }

  lemma StaysThere(l: State, ops: seq<Operation>, env: Env, b: BalanceId)
    requires ops != []
    ensures EverThere(l, ops[..|ops| - 1], env, b) ==> EverThere(l, ops, env, b)
  {
    var front := ops[..|ops| - 1];
    if EverThere(l, front, env, b) && b !in l.claimables {
      var i :| 0 <= i < |front| && front[i].body.CreateClaimable? && env.freshId(i) == b;
      assert ops[i].body.CreateClaimable?;
    }
  }

  lemma LeavesNew(l: State, ops: seq<Operation>, env: Env)
    requires ops != [] && FreshIds(ops, env, l) && ops[|ops| - 1].body.CreateClaimable?
    ensures var n := |ops| - 1;
      EverThere(l, ops, env, env.freshId(n)) && !EverThere(l, ops[..n], env, env.freshId(n))
  {
  }

  /** A claimed balance is gone for good, whether it was there at the start or was left on the way. */
  lemma {:induction false} ClaimedIsGone(l: State, ops: seq<Operation>, txSource: AccountId, env: Env)
    requires FreshIds(ops, env, l) && Exec(l, ops, txSource, env).Ok?
    ensures forall b :: ClaimedIn(ops, b) ==> b !in Exec(l, ops, txSource, env).value.claimables
    ensures forall b :: ClaimedIn(ops, b) || b in Exec(l, ops, txSource, env).value.claimables ==>
              EverThere(l, ops, env, b)
  {
    hide Step, ClaimedIn, EverThere, FreshIds;
    if ops == [] {
      NothingClaimed();
      forall b | b in l.claimables ensures EverThere(l, [], env, b) { ThereAtStart(l, env, b); }
    } else {
      var n := |ops| - 1;
      FreshFront(ops, n, env, l);
      ClaimedIsGone(l, ops[..n], txSource, env);
      StepClaims(Exec(l, ops[..n], txSource, env).value, ops[n].body, EffectiveSource(ops[n], txSource), env, n);
      if ops[n].body.CreateClaimable? { LeavesNew(l, ops, env); }
      var after := Exec(l, ops, txSource, env).value.claimables;
      forall b | ClaimedIn(ops, b) || b in after
        ensures EverThere(l, ops, env, b) && (ClaimedIn(ops, b) ==> b !in after)
      {
        ClaimedOneMore(ops, b);
        StaysThere(l, ops, env, b);
      }
    }
  }

  lemma ThereAtStart(l: State, env: Env, b: BalanceId)
    requires b in l.claimables
    ensures EverThere(l, [], env, b)
  {
  }

  lemma NothingClaimed()
    ensures forall b :: !ClaimedIn([], b)
  {
  }

  /** Whoever acted in a list that ran is an account of the ledger after it. */
  lemma {:induction false} ExecActors(l: State, ops: seq<Operation>, txSource: AccountId, env: Env, i: nat)
    requires Exec(l, ops, txSource, env).Ok? && i < |ops|
    ensures EffectiveSource(ops[i], txSource) in Exec(l, ops, txSource, env).value.accounts
  {
    hide Step;
    var n := |ops| - 1;
    var m := Exec(l, ops[..n], txSource, env).value;
    Runs.StepKeepsSequences(m, ops[n].body, EffectiveSource(ops[n], txSource), env, n);
    if i < n {
      ExecActors(l, ops[..n], txSource, env, i);
    } else {
      StepActor(m, ops[n].body, EffectiveSource(ops[n], txSource), env, n);
    }
  }

  lemma StepActor(l: State, body: OpBody, src: AccountId, env: Env, k: nat)
    requires Step(l, body, src, env, k).Ok?
    ensures src in l.accounts
  {
  }

  // ---------- How a claim fails ----------

  /** The two failures that are about the claim itself. */
  predicate ClaimFault(f: Failure) { f == DoesNotExist || f == CannotClaim }

  lemma OnlyClaimsFault(l: State, body: OpBody, src: AccountId, env: Env, k: nat)
    requires Step(l, body, src, env, k).Err? && ClaimFault(Step(l, body, src, env, k).error)
    ensures body.ClaimClaimable?
  {
    hide MinBalance, MayClaim, Destinations;
  }

  lemma WhenClaimsFault(l: State, b: BalanceId, src: AccountId, env: Env, k: nat)
    ensures var r := Step(l, ClaimClaimable(b), src, env, k);
      r.Err? && ClaimFault(r.error) <==>
        src in l.accounts && (b in l.claimables ==>
          !MayClaim(l.claimables[b], src, env.closeTime) || l.claimables[b].amount < 0)
  {
    hide MayClaim;
  }

  /** What comes of the operation at position `k`: nothing if an earlier one stops the list. */
  ghost function Attempt(l: State, ops: seq<Operation>, k: nat, txSource: AccountId, env: Env): Outcome
    requires k < |ops|
  {
    var m :- Exec(l, ops[..k], txSource, env);
    Step(m, ops[k].body, EffectiveSource(ops[k], txSource), env, k)
  }

  /** A claim the check let through is one the ledger would allow. */
  lemma OpenOnTheLedger(horizon: Horizon, l: State, user: AccountId, op: UserOp, now: int, need: Option<ClaimNeed>)
    requires Shows(horizon, l) && ShowsEntries(horizon, l)
    requires op.Claim? && ClaimOpen(horizon, Strkey(user), op, now, need)
    ensures ParseBalanceId(op.balanceId).Some? && ParseBalanceId(op.balanceId).value in l.claimables
    ensures var entry := l.claimables[ParseBalanceId(op.balanceId).value];
      MayClaim(entry, user, now) && entry.amount >= 0
  {
    hide ClaimableBy, MayClaim, ShowsEntry, ParseBalanceId, FormatStroops, ParseAmountStroops;
    var record := horizon(op.balanceId).record;
    AnswerIsTheLedgers(record, l.claimables[ParseBalanceId(op.balanceId).value], user, now);
  }

  predicate SameClaim(a: UserOp, b: UserOp) {
    a.Claim? && b.Claim? && ParseBalanceId(a.balanceId) == ParseBalanceId(b.balanceId)
  }

  predicate DistinctIds(ops: seq<UserOp>) {
    forall i, j :: 0 <= i < j < |ops| ==> !SameClaim(ops[i], ops[j])
  }

  /** Claims of a built transaction: the user's, of the id the request names. */
  lemma ClaimAt(q: Quote, tx: Transaction, j: nat)
    requires HasShape(q, tx) && q.source.Strkey? && j < |q.ops| && q.ops[j].Claim?
    ensures var op := tx.ops[q.First() + j];
      && ParseBalanceId(q.ops[j].balanceId).Some?
      && op.body == ClaimClaimable(ParseBalanceId(q.ops[j].balanceId).value)
      && EffectiveSource(op, tx.source) == q.source.id
  {
    assert UserOperation(q, UserSource(q).value, q.ops[j]) == Ok(tx.ops[q.First() + j]);
    hide ParseBalanceId, BeginOp, EndOp, FeeOp;
  }

  /** No other position of a built transaction claims anything. */
  lemma ClaimsOnlyThere(q: Quote, tx: Transaction, k: nat)
    requires HasShape(q, tx) && q.source.Strkey? && k < |tx.ops| && tx.ops[k].body.ClaimClaimable?
    ensures q.First() <= k < q.First() + |q.ops| && q.ops[k - q.First()].Claim?
  {
    hide XdrAsset, XdrAssets, Amount, PathAssets, ClaimableClaimants, ParseBalanceId, FeeOp;
    FeeIsNoClaim(q);
    if q.First() <= k < q.First() + |q.ops| {
      var j := k - q.First();
      assert UserOperation(q, UserSource(q).value, q.ops[j]) == Ok(tx.ops[q.First() + j]);
    }
  }

  lemma FeeIsNoClaim(q: Quote)
    requires FeeOp(q).Ok?
    ensures FeeOp(q).value.body.PathStrictReceive?
  {
  }

  lemma EarlierClaim(q: Quote, tx: Transaction, j: nat)
    requires HasShape(q, tx) && q.source.Strkey? && j < |q.ops| && q.ops[j].Claim?
    ensures ParseBalanceId(q.ops[j].balanceId).Some?
    ensures ClaimedIn(tx.ops[..q.First() + j], ParseBalanceId(q.ops[j].balanceId).value)
       <==> exists i :: 0 <= i < j && SameClaim(q.ops[i], q.ops[j])
  {
    hide HasShape, ParseBalanceId;
    ClaimAt(q, tx, j);
    ShapeSize(q, tx);
    var front, b := tx.ops[..q.First() + j], ParseBalanceId(q.ops[j].balanceId).value;
    if ClaimedIn(front, b) {
      var k :| 0 <= k < |front| && front[k].body == ClaimClaimable(b);
      assert front[k] == tx.ops[k];
      ClaimsOnlyThere(q, tx, k);
      ClaimAt(q, tx, k - q.First());
      assert SameClaim(q.ops[k - q.First()], q.ops[j]);
    }
    forall i | 0 <= i < j && SameClaim(q.ops[i], q.ops[j]) ensures ClaimedIn(front, b) {
      ClaimAt(q, tx, i);
      assert front[q.First() + i].body == ClaimClaimable(b);
    }
  }

  lemma ShapeSize(q: Quote, tx: Transaction)
    requires HasShape(q, tx)
    ensures |tx.ops| == |q.ops| + 2 * q.First() + 1
  {
  }

  /**
   * When everything before it has run, on the ledger and at the time the claims were checked: a claim
   * stops for a reason of its own, not there or not allowed, exactly when an earlier one had the same id.
   */
  lemma ClaimStopsExactlyWhenRepeated(l: State, horizon: Horizon, q: Quote, tx: Transaction, j: nat,
                                      need: Option<ClaimNeed>, env: Env)
    requires q.First() + j < |tx.ops| && HasShape(q, tx) && q.source.Strkey? && j < |q.ops| && q.ops[j].Claim?
    requires Shows(horizon, l) && ShowsEntries(horizon, l) && FreshIds(tx.ops, env, l)
    requires ClaimOpen(horizon, q.source, q.ops[j], env.closeTime, need)
    requires Exec(l, tx.ops[..q.First() + j], tx.source, env).Ok?
    ensures var r := Attempt(l, tx.ops, q.First() + j, tx.source, env);
      && (r.Err? && ClaimFault(r.error) ==> exists i :: 0 <= i < j && SameClaim(q.ops[i], q.ops[j]))
      && ((exists i :: 0 <= i < j && SameClaim(q.ops[i], q.ops[j])) ==> r == Err(DoesNotExist))
  {
    hide HasShape, Shows, ShowsEntries, ClaimOpen, Step, Exec, ParseBalanceId, MayClaim, ClaimedIn, SameClaim;
    ShapeSize(q, tx);
    ClaimAt(q, tx, j);
    OpenOnTheLedger(horizon, l, q.source.id, q.ops[j], env.closeTime, need);
    EarlierClaim(q, tx, j);
    var k, b := q.First() + j, ParseBalanceId(q.ops[j].balanceId).value;
    var front := tx.ops[..k];
    assert FreshIds(front, env, l);
    ExecClaims(l, front, tx.source, env);
    var m := Exec(l, front, tx.source, env).value;
    WhenClaimsFault(m, b, q.source.id, env, k);
    if ClaimedIn(front, b) {
      ClaimantActed(l, q, tx, j, env);
      GoneIsGone(m, b, q.source.id, env, k);
    }
  }

  lemma GoneIsGone(l: State, b: BalanceId, src: AccountId, env: Env, k: nat)
    requires src in l.accounts && b !in l.claimables
    ensures Step(l, ClaimClaimable(b), src, env, k) == Err(DoesNotExist)
  {
  }

  lemma ClaimantActed(l: State, q: Quote, tx: Transaction, j: nat, env: Env)
    requires q.First() + j < |tx.ops| && HasShape(q, tx) && q.source.Strkey? && j < |q.ops| && q.ops[j].Claim?
    requires Exec(l, tx.ops[..q.First() + j], tx.source, env).Ok?
    requires exists i :: 0 <= i < j && SameClaim(q.ops[i], q.ops[j])
    ensures q.source.id in Exec(l, tx.ops[..q.First() + j], tx.source, env).value.accounts
  {
    hide HasShape, Exec, ParseBalanceId;
    ShapeSize(q, tx);
    var i :| 0 <= i < j && SameClaim(q.ops[i], q.ops[j]);
    ClaimAt(q, tx, i);
    ExecActors(l, tx.ops[..q.First() + j], tx.source, env, q.First() + i);
  }

  // ---------- Whole transactions ----------

  ghost predicate AllOpen(horizon: Horizon, q: Quote, now: int, need: Option<ClaimNeed>) {
    forall j :: 0 <= j < |q.ops| ==> ClaimOpen(horizon, q.source, q.ops[j], now, need)
  }

  /** No prefix of the checked transaction stops at a claim, unless two of its claims have one id. */
  lemma {:induction false} DistinctClaimsNeverStop(l: State, horizon: Horizon, q: Quote, tx: Transaction, k: nat,
                                                   need: Option<ClaimNeed>, env: Env)
    requires k <= |tx.ops| && HasShape(q, tx) && q.source.Strkey? && DistinctIds(q.ops)
    requires Shows(horizon, l) && ShowsEntries(horizon, l) && FreshIds(tx.ops, env, l)
    requires AllOpen(horizon, q, env.closeTime, need)
    ensures Exec(l, tx.ops[..k], tx.source, env).Err? ==> !ClaimFault(Exec(l, tx.ops[..k], tx.source, env).error)
  {
    hide HasShape, Shows, ShowsEntries, ClaimOpen, Step, SameClaim, FreshIds;
    if k == 0 {
    } else {
      DistinctClaimsNeverStop(l, horizon, q, tx, k - 1, need, env);
      assert tx.ops[..k][..k - 1] == tx.ops[..k - 1];
      var r := Exec(l, tx.ops[..k - 1], tx.source, env);
      if r.Ok? {
        var src := EffectiveSource(tx.ops[k - 1], tx.source);
        var s := Step(r.value, tx.ops[k - 1].body, src, env, k - 1);
        if s.Err? && ClaimFault(s.error) {
          OnlyClaimsFault(r.value, tx.ops[k - 1].body, src, env, k - 1);
          ClaimsOnlyThere(q, tx, k - 1);
          ClaimStopsExactlyWhenRepeated(l, horizon, q, tx, k - 1 - q.First(), need, env);
        }
      }
    }
  }

  /** Whatever was checked, a transaction that claims one id twice never runs through. */
  lemma RepeatedClaimsNeverRun(l: State, q: Quote, tx: Transaction, env: Env)
    requires q.First() + |q.ops| <= |tx.ops| && HasShape(q, tx) && q.source.Strkey? && FreshIds(tx.ops, env, l)
    requires Exec(l, tx.ops[..q.First() + |q.ops|], tx.source, env).Ok?
    ensures DistinctIds(q.ops)
  {
    hide HasShape, ParseBalanceId, Exec, Step, ClaimedIn, FreshIds;
    ShapeSize(q, tx);
    forall i, j | 0 <= i < j < |q.ops| ensures !SameClaim(q.ops[i], q.ops[j]) {
      if SameClaim(q.ops[i], q.ops[j]) {
        RanPast(l, tx.ops[..q.First() + |q.ops|], q.First() + j, tx.source, env);
        assert tx.ops[..q.First() + |q.ops|][..q.First() + j] == tx.ops[..q.First() + j];
        EarlierClaim(q, tx, j);
        ClaimAt(q, tx, j);
        FreshFront(tx.ops, q.First() + j, env, l);
        ClaimedIsGone(l, tx.ops[..q.First() + j], tx.source, env);
        var m := Exec(l, tx.ops[..q.First() + j], tx.source, env).value;
        StepClaims(m, tx.ops[q.First() + j].body, q.source.id, env, q.First() + j);
      }
    }
  }

  lemma FreshFront(ops: seq<Operation>, k: nat, env: Env, l: State)
    requires FreshIds(ops, env, l) && k <= |ops|
    ensures FreshIds(ops[..k], env, l)
  {
  }

  /** Whatever stops a list stops every longer one. */
  lemma {:induction false} StoppedStays(l: State, ops: seq<Operation>, i: nat, txSource: AccountId, env: Env)
    requires i <= |ops| && Exec(l, ops[..i], txSource, env).Err?
    ensures Exec(l, ops, txSource, env).Err?
  {
    hide Step;
    if i < |ops| {
      assert ops[..|ops| - 1][..i] == ops[..i];
      StoppedStays(l, ops[..|ops| - 1], i, txSource, env);
    } else {
      assert ops[..i] == ops;
    }
  }

  lemma {:induction false} RanPast(l: State, ops: seq<Operation>, k: nat, txSource: AccountId, env: Env)
    requires k < |ops| && Exec(l, ops, txSource, env).Ok?
    ensures Exec(l, ops[..k], txSource, env).Ok?
    ensures Step(Exec(l, ops[..k], txSource, env).value, ops[k].body, EffectiveSource(ops[k], txSource), env, k).Ok?
  {
    hide Step;
    var n := |ops| - 1;
    if k < n {
      assert ops[..n][..k] == ops[..k];
      RanPast(l, ops[..n], k, txSource, env);
    }
  }

  /**
   * The check buys exactly this: on the ledger and at the time it was made, unless something else
   * stops the operations, they stop at a claim if and only if an id is claimed twice. Neither the
   * plan nor the check refuses that.
   */
  lemma ClaimsStopExactlyWhenRepeated(l: State, horizon: Horizon, q: Quote, tx: Transaction,
                                      need: Option<ClaimNeed>, env: Env)
    requires q.First() + |q.ops| <= |tx.ops| && HasShape(q, tx) && q.source.Strkey?
    requires Shows(horizon, l) && ShowsEntries(horizon, l) && FreshIds(tx.ops, env, l)
    requires AllOpen(horizon, q, env.closeTime, need)
    ensures var r := Exec(l, tx.ops[..q.First() + |q.ops|], tx.source, env);
      && (r.Err? && ClaimFault(r.error) ==> !DistinctIds(q.ops))
      && (!DistinctIds(q.ops) ==> r.Err?)
  {
    hide HasShape, Shows, ShowsEntries, ClaimOpen, Exec, DistinctIds, FreshIds, ParseBalanceId;
    ShapeSize(q, tx);
    if DistinctIds(q.ops) {
      DistinctClaimsNeverStop(l, horizon, q, tx, q.First() + |q.ops|, need, env);
    } else if Exec(l, tx.ops[..q.First() + |q.ops|], tx.source, env).Ok? {
      RepeatedClaimsNeverRun(l, q, tx, env);
    }
  }
}
