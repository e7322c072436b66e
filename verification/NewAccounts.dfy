// When creating an account goes through: which requests can run at all, and which do.
module NewAccounts {
  import opened Prelude
  import opened Stellar
  import opened Names
  import opened Plans
  import opened Build
  import opened Claims
  import opened Ledger
  import opened SponsorEffects
  import opened Economy
  import opened Runs
  import opened OpenClaims
  import opened BootstrapFunding
  import opened Service
  import opened Pipeline
  import Pricing
  import Agreement
  import Decimal

  // ---------- The sandwich while the user's operations run ----------

  lemma MovesKeepSandwiches(l: State, who: AccountId, asset: Asset, n: nat, base: nat)
    ensures Debit(l, who, asset, n, base).Ok? ==> Debit(l, who, asset, n, base).value.sandwiches == l.sandwiches
    ensures Deposit(l, who, asset, n).Ok? ==> Deposit(l, who, asset, n).value.sandwiches == l.sandwiches
    ensures Ledger.Sponsor(l, who, n, base).Ok? ==> Ledger.Sponsor(l, who, n, base).value.sandwiches == l.sandwiches
    ensures Unsponsor(l, who, n).sandwiches == l.sandwiches
  {
    hide MinBalance;
  }

  /** Only the two operations that are about sandwiches change which are open. */
  lemma StepKeepsSandwiches(l: State, body: OpBody, src: AccountId, env: Env, k: nat)
    requires !body.BeginSponsoring? && !body.EndSponsoring? && Step(l, body, src, env, k).Ok?
    ensures Step(l, body, src, env, k).value.sandwiches == l.sandwiches
  {
    hide Debit, Deposit, Ledger.Sponsor, Unsponsor, MinBalance, MayClaim, Destinations, Ledger.Cost, Proceeds;
    forall m: State, who, asset, n: nat
      ensures var d := Debit(m, who, asset, n, env.baseReserve); d.Ok? ==> d.value.sandwiches == m.sandwiches
    {
      MovesKeepSandwiches(m, who, asset, n, env.baseReserve);
    }
    forall m: State, who, asset, n: nat
      ensures var d := Deposit(m, who, asset, n); d.Ok? ==> d.value.sandwiches == m.sandwiches
    {
      MovesKeepSandwiches(m, who, asset, n, env.baseReserve);
    }
    forall m: State, who, n: nat
      ensures var d := Ledger.Sponsor(m, who, n, env.baseReserve); d.Ok? ==> d.value.sandwiches == m.sandwiches
    {
      MovesKeepSandwiches(m, who, Native, n, env.baseReserve);
    }
    forall m: State, who, n: nat ensures Unsponsor(m, who, n).sandwiches == m.sandwiches {
      MovesKeepSandwiches(m, who, Native, n, env.baseReserve);
    }
  }

  /** What is open between begin and end. */
  function Opened(q: Quote, sponsor: AccountId): map<AccountId, AccountId>
    requires q.source.Strkey?
  {
    if q.Sandwiched() then map[q.source.id := sponsor] else map[]
  }

  lemma UserBodies(q: Quote, tx: Transaction, j: nat)
    requires HasShape(q, tx) && q.source.Strkey? && j < |q.ops| && q.First() + j < |tx.ops|
    ensures var op := tx.ops[q.First() + j];
      && !op.body.BeginSponsoring? && !op.body.EndSponsoring?
      && EffectiveSource(op, tx.source) == (if q.ops[j].Create? then tx.source else q.source.id)
      && (q.ops[j].Create? ==> q.ops[j].destination.Strkey? && op.body == CreateAccount(q.ops[j].destination.id, 0))
  {
    hide BeginOp, EndOp, FeeOp, ParseBalanceId, ClaimableClaimants, PathAssets, XdrAsset, Amount;
    assert UserOperation(q, UserSource(q).value, q.ops[j]) == Ok(tx.ops[q.First() + j]);
  }

  lemma BeginIs(q: Quote, tx: Transaction, sponsor: AccountId)
    requires HasShape(q, tx) && q.source.Strkey? && q.sponsor == Strkey(sponsor) && q.Sandwiched() && tx.ops != []
    ensures tx.ops[0].body == BeginSponsoring(q.source.id) && EffectiveSource(tx.ops[0], tx.source) == sponsor
  {
    hide UserOperation, EndOp, FeeOp;
  }

  lemma {:induction false} SandwichStays(l: State, q: Quote, tx: Transaction, sponsor: AccountId, j: nat, env: Env)
    requires HasShape(q, tx) && q.source.Strkey? && q.sponsor == Strkey(sponsor) && l.sandwiches == map[]
    requires j <= |q.ops| && q.First() + |q.ops| < |tx.ops|
    requires Exec(l, tx.ops[..q.First() + j], tx.source, env).Ok?
    ensures Exec(l, tx.ops[..q.First() + j], tx.source, env).value.sandwiches == Opened(q, sponsor)
  {
    hide HasShape, Step;
    var k := q.First() + j;
    if j == 0 {
      if q.Sandwiched() {
        assert tx.ops[..1][..0] == [];
        assert Exec(l, tx.ops[..1][..0], tx.source, env) == Ok(l);
        BeginIs(q, tx, sponsor);
        BeginOpens(l, q.source.id, sponsor, env);
      } else {
        assert tx.ops[..0] == [];
      }
    } else {
      assert tx.ops[..k][..k - 1] == tx.ops[..k - 1];
      SandwichStays(l, q, tx, sponsor, j - 1, env);
      UserBodies(q, tx, j - 1);
      StepKeepsSandwiches(Exec(l, tx.ops[..k - 1], tx.source, env).value, tx.ops[k - 1].body,
                          EffectiveSource(tx.ops[k - 1], tx.source), env, k - 1);
    }
  }

  lemma BeginOpens(l: State, id: AccountId, sponsor: AccountId, env: Env)
    requires l.sandwiches == map[]
    ensures var r := Step(l, BeginSponsoring(id), sponsor, env, 0);
      && (r.Ok? ==> r.value == l.(sandwiches := map[id := sponsor]))
      && (sponsor in l.accounts && sponsor != id ==> r.Ok?)
  {
  }

  // ---------- Which accounts can be created ----------

  lemma CreateNeedsSandwich(l: State, src: AccountId, id: AccountId, env: Env, k: nat)
    requires Step(l, CreateAccount(id, 0), src, env, k).Ok? && env.baseReserve > 0
    ensures id in l.sandwiches && id !in l.accounts
  {
  }

  /**
   * An account is created with nothing in it, so it can only be one whose reserves the open sandwich
   * carries: whatever the ledger, if the operations up to a `create_account` run, the quote is a
   * bootstrap one and the account is the user's own.
   */
  lemma CreateRunsOnlyForTheUser(l: State, q: Quote, tx: Transaction, sponsor: AccountId, j: nat, env: Env)
    requires Built(q) == Ok(tx) && q.source.Strkey? && q.sponsor == Strkey(sponsor)
    requires l.sandwiches == map[] && tx.source in l.accounts && env.baseReserve > 0
    requires j < |q.ops| && q.ops[j].Create? && q.First() + |q.ops| < |tx.ops|
    requires Exec(l, tx.ops[..q.First() + j + 1], tx.source, env).Ok?
    ensures q.mode.Bootstrap? && q.ops[j].destination == q.source && q.Sandwiched()
  {
    hide HasShape, Built, Step, Exec;
    BuiltHasShape(q);
    var k := q.First() + j;
    RanPast(l, tx.ops[..k + 1], k, tx.source, env);
    assert tx.ops[..k + 1][..k] == tx.ops[..k];
    SandwichStays(l, q, tx, sponsor, j, env);
    UserBodies(q, tx, j);
    var m := Exec(l, tx.ops[..k], tx.source, env).value;
    CreateNeedsSandwich(m, tx.source, q.ops[j].destination.id, env, k);
    ExecKeepsSequences(l, tx.ops[..k], tx.source, env);
    SourceIs(q, tx);
  }

  lemma SourceIs(q: Quote, tx: Transaction)
    requires HasShape(q, tx)
    ensures Strkey(tx.source) == q.TxSource()
  {
    hide UserOperation, FeeOp, BeginOp, EndOp;
  }

  // ---------- What a new account has been through ----------

  type Entries = map<BalanceId, ClaimableEntry>

  /** What the claims among the operations brought in, in one asset. */
  function Held(there: Entries, ops: seq<UserOp>, asset: Asset): nat {
    if ops == [] then 0
    else
      Held(there, ops[..|ops| - 1], asset)
      + match ops[|ops| - 1]
        case Claim(id) =>
          var b := ParseBalanceId(id);
          if b.Some? && b.value in there && there[b.value].asset == asset
          then Max(there[b.value].amount, 0) else 0
        case _ => 0
  }

  /** What the claim check adds up is what the ledger holds: every claim, once, in full. */
  lemma {:induction false} ArrivingIsHeld(l: State, horizon: Horizon, ops: seq<UserOp>, need: Option<ClaimNeed>,
                                          asset: Asset)
    requires Shows(horizon, l) && need.Some? && need.value.asset == Canonical(asset)
    requires forall i :: 0 <= i < |ops| && ops[i].Claim? ==> horizon(ops[i].balanceId).Found?
    ensures Arriving(horizon, ops, need) == Held(l.claimables, ops, asset)
  {
    hide ParseBalanceId, Canonical, Decimal.ParseAmountStroops, Decimal.FormatStroops;
    if ops == [] {
    } else {
      var front, op := ops[..|ops| - 1], ops[|ops| - 1];
      assert forall i :: 0 <= i < |front| ==> front[i] == ops[i];
      ArrivingIsHeld(l, horizon, front, need, asset);
      if op.Claim? {
        var entry := l.claimables[ParseBalanceId(op.balanceId).value];
        Decimal.FormatParseRoundTrip(entry.amount);
        CanonicalInjective(entry.asset, asset);
      }
    }
  }

  function LimitOf(limit: Option<string>): int {
    match limit
    case None => MAX_TRUSTLINE_LIMIT
    case Some(text) => if Amount(text).Ok? then Amount(text).value else 0
  }

  /** The limit of the line the operations leave open for an asset: the last one asked for, and none at zero. */
  function OpenLimit(ops: seq<UserOp>, asset: Asset): Option<int> {
    if ops == [] then None
    else
      match ops[|ops| - 1]
      case Trust(text, limit) =>
        if XdrAsset(text) == Ok(asset) then (if LimitOf(limit) == 0 then None else Some(LimitOf(limit)))
        else OpenLimit(ops[..|ops| - 1], asset)
      case _ => OpenLimit(ops[..|ops| - 1], asset)
  }

  /** A line can be opened, changed or closed. */
  predicate TrustFits(there: Entries, user: AccountId, before: seq<UserOp>, asset: Asset, limit: int) {
    asset.Credit? && asset.issuer != user && limit >= Held(there, before, asset)
    && (limit > 0 || OpenLimit(before, asset).Some?)
  }

  /** There is room for what arrives. */
  predicate RoomFor(there: Entries, user: AccountId, before: seq<UserOp>, asset: Asset, n: int) {
    if asset.Native? then Held(there, before, asset) + n <= I64_MAX
    else asset.issuer == user
         || (OpenLimit(before, asset).Some? && Held(there, before, asset) + n <= OpenLimit(before, asset).value)
  }

  predicate ClaimedBefore(before: seq<UserOp>, op: UserOp) {
    exists i :: 0 <= i < |before| && SameClaim(before[i], op)
  }

  /**
   * Whether an operation has its place after those before it: the account's own creation first and
   * only there; lines that can be had, before what they are for; no balance twice; nothing that overflows.
   */
  predicate Fits(there: Entries, user: AccountId, before: seq<UserOp>, op: UserOp) {
    match op
    case Create(destination) => before == [] && destination == Strkey(user)
    case Trust(text, limit) =>
      before != [] && XdrAsset(text).Ok? && TrustFits(there, user, before, XdrAsset(text).value, LimitOf(limit))
    case Claim(id) =>
      before != [] && !ClaimedBefore(before, op)
      && ParseBalanceId(id).Some? && ParseBalanceId(id).value in there
      && var entry := there[ParseBalanceId(id).value];
         RoomFor(there, user, before, entry.asset, entry.amount)
    case _ => false
  }

  predicate AllFit(there: Entries, user: AccountId, ops: seq<UserOp>) {
    forall i :: 0 <= i < |ops| ==> Fits(there, user, ops[..i], ops[i])
  }

  /** The account mirrors its operations: all it has came from claims, and all it locks is sponsored. */
  ghost predicate Mirrors(there: Entries, m: State, user: AccountId, sponsor: AccountId, ops: seq<UserOp>) {
    && user in m.accounts && m.accounts[user].balance == Held(there, ops, Native)
    && m.accounts[user].sponsored == m.accounts[user].subentries + 2 && m.accounts[user].sponsoring <= 0
    && m.sandwiches == map[user := sponsor]
    && (forall a: Asset :: a.Credit? && a.issuer != user ==> LineMirrors(there, m, user, ops, a))
    && (forall a :: (user, a) in m.lines ==> m.lines[(user, a)].sponsor.Some?)
  }

  ghost predicate LineMirrors(there: Entries, m: State, user: AccountId, ops: seq<UserOp>, a: Asset) {
    && ((user, a) in m.lines <==> OpenLimit(ops, a).Some?)
    && ((user, a) in m.lines ==>
          m.lines[(user, a)].limit == OpenLimit(ops, a).value && m.lines[(user, a)].balance == Held(there, ops, a))
    && ((user, a) !in m.lines ==> Held(there, ops, a) == 0)
  }

  /** Nothing of the account is there yet. */
  ghost predicate Untouched(l: State, user: AccountId) {
    user !in l.accounts && forall a :: (user, a) !in l.lines
  }

  lemma HeldOneMore(there: Entries, before: seq<UserOp>, op: UserOp, asset: Asset)
    ensures Held(there, before + [op], asset) == Held(there, before, asset)
      + if op.Claim? && ParseBalanceId(op.balanceId).Some? && ParseBalanceId(op.balanceId).value in there
           && there[ParseBalanceId(op.balanceId).value].asset == asset
        then Max(there[ParseBalanceId(op.balanceId).value].amount, 0) else 0
    ensures OpenLimit(before + [op], asset) ==
      if op.Trust? && XdrAsset(op.asset) == Ok(asset)
      then (if LimitOf(op.limit) == 0 then None else Some(LimitOf(op.limit)))
      else OpenLimit(before, asset)
  {
    hide ParseBalanceId, XdrAsset, LimitOf;
    assert (before + [op])[..|before + [op]| - 1] == before;
  }

  // ---------- One operation ----------

  /** Nothing the account would do itself works before it is there. */
  lemma NobodyYet(m: State, body: OpBody, user: AccountId, env: Env, k: nat)
    requires user !in m.accounts
    ensures Step(m, body, user, env, k) == Err(NoAccount(user))
  {
  }

  lemma CreateFirst(there: Entries, m: State, user: AccountId, sponsor: AccountId, op: UserOp, src: AccountId, env: Env,
                    k: nat)
    requires op == Create(Strkey(user)) && Untouched(m, user) && m.sandwiches == map[user := sponsor]
    requires sponsor in m.accounts && src in m.accounts && Headroom(m, src, env.baseReserve) >= 0 && user != sponsor
    ensures var r := Step(m, CreateAccount(user, 0), src, env, k);
      && (r.Err? ==> Blames(r.error, sponsor))
      && (r.Ok? ==> Mirrors(there, r.value, user, sponsor, [op]))
      && (r.Ok? ==> r.value.accounts[sponsor].balance == m.accounts[sponsor].balance)
  {
    assert [op][..0] == [];
    assert forall a :: Held(there, [op], a) == 0 && OpenLimit([op], a) == None by {
      forall a ensures Held(there, [op], a) == 0 && OpenLimit([op], a) == None {
        HeldOneMore(there, [], op, a);
        assert [] + [op] == [op];
      }
    }
  }

  lemma CreateLater(there: Entries, m: State, user: AccountId, sponsor: AccountId, before: seq<UserOp>, id: AccountId,
                    src: AccountId, env: Env, k: nat)
    requires Mirrors(there, m, user, sponsor, before) && env.baseReserve > 0
    ensures Step(m, CreateAccount(id, 0), src, env, k).Err?
  {
    hide LineMirrors;
    if Step(m, CreateAccount(id, 0), src, env, k).Ok? { CreateNeedsSandwich(m, src, id, env, k); }
  }

  /** The lines of other assets are none of this operation's business. */
  lemma TrustKeepsOthers(there: Entries, before: seq<UserOp>, op: UserOp, asset: Asset, a: Asset)
    requires op.Trust? && XdrAsset(op.asset) == Ok(asset)
    ensures Held(there, before + [op], a) == Held(there, before, a)
    ensures OpenLimit(before + [op], a)
         == if a == asset then (if LimitOf(op.limit) == 0 then None else Some(LimitOf(op.limit)))
            else OpenLimit(before, a)
  {
    hide XdrAsset, LimitOf, Held, OpenLimit;
    HeldOneMore(there, before, op, a);
  }

  lemma TrustRefused(there: Entries, m: State, user: AccountId, sponsor: AccountId, before: seq<UserOp>, asset: Asset,
                     limit: int, env: Env)
    requires Mirrors(there, m, user, sponsor, before) && !TrustFits(there, user, before, asset, limit)
    ensures DoTrust(m, user, asset, limit, env).Err?
  {
    hide Held, OpenLimit, AddSubentry, RemoveSubentry;
    if asset.Credit? && asset.issuer != user { assert LineMirrors(there, m, user, before, asset); }
  }

  /** What the ledger does about a line, in the three cases that fit. */
  ghost predicate LineSet(m: State, n: State, user: AccountId, asset: Asset, limit: int) {
    && n.sandwiches == m.sandwiches && n.accounts.Keys == m.accounts.Keys && user in m.accounts
    && n.accounts[user].balance == m.accounts[user].balance
    && n.accounts[user].sponsored - n.accounts[user].subentries
       == m.accounts[user].sponsored - m.accounts[user].subentries
    && n.accounts[user].sponsoring <= m.accounts[user].sponsoring
    && (forall a :: a != asset ==> ((user, a) in n.lines <==> (user, a) in m.lines))
    && (forall a :: a != asset && (user, a) in m.lines ==> n.lines[(user, a)] == m.lines[(user, a)])
    && ((user, asset) in n.lines <==> limit > 0)
    && (limit > 0 ==>
          var line := n.lines[(user, asset)];
          line.limit == limit && line.sponsor.Some?
          && line.balance == if (user, asset) in m.lines then m.lines[(user, asset)].balance else 0)
  }

  lemma TrustSets(m: State, user: AccountId, sponsor: AccountId, asset: Asset, limit: int, env: Env)
    requires user in m.accounts && sponsor in m.accounts && user != sponsor && m.sandwiches == map[user := sponsor]
    requires asset.Credit? && asset.issuer != user && limit >= 0 && (limit > 0 || (user, asset) in m.lines)
    requires (user, asset) in m.lines ==> limit >= m.lines[(user, asset)].balance
    requires (user, asset) in m.lines ==> m.lines[(user, asset)].sponsor.Some?
    ensures var r := DoTrust(m, user, asset, limit, env);
      && (r.Err? ==> Blames(r.error, sponsor))
      && (r.Ok? ==> LineSet(m, r.value, user, asset, limit))
      && (r.Ok? ==> r.value.accounts[sponsor].balance == m.accounts[sponsor].balance)
  {
    hide MinBalance;
  }

  lemma TrustTaken(there: Entries, m: State, user: AccountId, sponsor: AccountId, before: seq<UserOp>, op: UserOp,
                   asset: Asset, env: Env)
    requires Mirrors(there, m, user, sponsor, before) && user != sponsor && sponsor in m.accounts
    requires op.Trust? && XdrAsset(op.asset) == Ok(asset) && TrustFits(there, user, before, asset, LimitOf(op.limit))
    ensures var r := DoTrust(m, user, asset, LimitOf(op.limit), env);
      && (r.Err? ==> Blames(r.error, sponsor))
      && (r.Ok? ==> Mirrors(there, r.value, user, sponsor, before + [op]))
      && (r.Ok? ==> r.value.accounts.Keys == m.accounts.Keys)
      && (r.Ok? ==> r.value.accounts[sponsor].balance == m.accounts[sponsor].balance)
  {
    hide Held, OpenLimit, XdrAsset, LimitOf, DoTrust, Blames, LineSet;
    assert LineMirrors(there, m, user, before, asset);
    TrustSets(m, user, sponsor, asset, LimitOf(op.limit), env);
    var r := DoTrust(m, user, asset, LimitOf(op.limit), env);
    if r.Ok? { LineSetMirrors(there, m, r.value, user, sponsor, before, op, asset); }
  }

  lemma LineSetMirrors(there: Entries, m: State, n: State, user: AccountId, sponsor: AccountId, before: seq<UserOp>,
                       op: UserOp, asset: Asset)
    requires op.Trust? && XdrAsset(op.asset) == Ok(asset) && TrustFits(there, user, before, asset, LimitOf(op.limit))
    requires Mirrors(there, m, user, sponsor, before) && LineSet(m, n, user, asset, LimitOf(op.limit))
    ensures Mirrors(there, n, user, sponsor, before + [op]) && n.accounts.Keys == m.accounts.Keys
  {
    hide Held, OpenLimit, XdrAsset, LimitOf;
    TrustKeepsOthers(there, before, op, asset, Native);
    forall a: Asset | a.Credit? && a.issuer != user ensures LineMirrors(there, n, user, before + [op], a) {
      assert LineMirrors(there, m, user, before, a);
      TrustKeepsOthers(there, before, op, asset, a);
    }
    forall a | (user, a) in n.lines ensures n.lines[(user, a)].sponsor.Some? {
      if a != asset { assert (user, a) in m.lines; }
    }
  }

  lemma ClaimRefused(there: Entries, m: State, user: AccountId, sponsor: AccountId, before: seq<UserOp>, b: BalanceId,
                     env: Env)
    requires Mirrors(there, m, user, sponsor, before) && b in m.claimables
    requires !RoomFor(there, user, before, m.claimables[b].asset, m.claimables[b].amount)
    ensures DoClaim(m, user, b, env).Err?
  {
    hide Held, OpenLimit, MayClaim;
    var asset := m.claimables[b].asset;
    if asset.Credit? && asset.issuer != user { assert LineMirrors(there, m, user, before, asset); }
  }

  lemma ClaimKeeps(there: Entries, before: seq<UserOp>, op: UserOp, b: BalanceId, a: Asset)
    requires op.Claim? && ParseBalanceId(op.balanceId) == Some(b) && b in there && there[b].amount >= 0
    ensures Held(there, before + [op], a)
         == Held(there, before, a) + if there[b].asset == a then there[b].amount else 0
    ensures OpenLimit(before + [op], a) == OpenLimit(before, a)
  {
    hide ParseBalanceId, XdrAsset, LimitOf, Held, OpenLimit;
    HeldOneMore(there, before, op, a);
  }

  lemma ClaimTaken(there: Entries, m: State, user: AccountId, sponsor: AccountId, before: seq<UserOp>, op: UserOp,
                   b: BalanceId, env: Env)
    requires Mirrors(there, m, user, sponsor, before) && user != sponsor && sponsor in m.accounts
    requires op.Claim? && ParseBalanceId(op.balanceId) == Some(b)
    requires b in there && b in m.claimables && m.claimables[b] == there[b]
    requires MayClaim(m.claimables[b], user, env.closeTime) && m.claimables[b].amount >= 0
    requires RoomFor(there, user, before, m.claimables[b].asset, m.claimables[b].amount)
    ensures var r := DoClaim(m, user, b, env);
      && r.Ok? && Mirrors(there, r.value, user, sponsor, before + [op])
      && r.value.accounts.Keys == m.accounts.Keys
      && r.value.accounts[sponsor].balance == m.accounts[sponsor].balance
  {
    hide Held, OpenLimit, ParseBalanceId, MayClaim;
    var entry := m.claimables[b];
    if entry.asset.Credit? && entry.asset.issuer != user { assert LineMirrors(there, m, user, before, entry.asset); }
    var r := DoClaim(m, user, b, env).value;
    ClaimKeeps(there, before, op, b, Native);
    forall a: Asset | a.Credit? && a.issuer != user ensures LineMirrors(there, r, user, before + [op], a) {
      assert LineMirrors(there, m, user, before, a);
      ClaimKeeps(there, before, op, b, a);
    }
  }

  // ---------- A whole list ----------

  /** Where the ledger stands before the next operation: nothing of the account yet, or its mirror. */
  ghost predicate Stands(there: Entries, m: State, user: AccountId, sponsor: AccountId, src: AccountId,
                         before: seq<UserOp>, base: nat)
  {
    && sponsor in m.accounts && src in m.accounts
    && if before == [] then Untouched(m, user) && m.sandwiches == map[user := sponsor] && Headroom(m, src, base) >= 0
       else Mirrors(there, m, user, sponsor, before)
  }

  /** A claim that was checked: there, allowed, and gone only if an earlier operation took it. */
  ghost predicate ClaimStands(there: Entries, m: State, user: AccountId, before: seq<UserOp>, op: UserOp, now: int) {
    op.Claim? ==>
      && ParseBalanceId(op.balanceId).Some? && ParseBalanceId(op.balanceId).value in there
      && var b := ParseBalanceId(op.balanceId).value;
         there[b].amount >= 0 && MayClaim(there[b], user, now)
         && (b in m.claimables <==> !ClaimedBefore(before, op)) && (b in m.claimables ==> m.claimables[b] == there[b])
  }

  /** What a user operation of such a quote is built as. */
  lemma BuiltAs(q: Quote, tx: Transaction, j: nat)
    requires HasShape(q, tx) && q.source.Strkey? && q.mode.Bootstrap? && j < |q.ops| && q.First() + j < |tx.ops|
    ensures var op := tx.ops[q.First() + j];
      match q.ops[j]
      case Create(d) => d.Strkey? && op == Operation(None, CreateAccount(d.id, 0))
      case Trust(text, limit) =>
        XdrAsset(text).Ok? && LimitOf(limit) >= 0
        && op == Operation(Some(q.source.id), ChangeTrust(AssetLine(XdrAsset(text).value), LimitOf(limit)))
      case Claim(id) =>
        ParseBalanceId(id).Some? && op == Operation(Some(q.source.id), ClaimClaimable(ParseBalanceId(id).value))
      case _ => true
  {
    hide BeginOp, EndOp, FeeOp, ParseBalanceId, ClaimableClaimants, PathAssets, XdrAsset;
    assert UserOperation(q, UserSource(q).value, q.ops[j]) == Ok(tx.ops[q.First() + j]);
  }

  /** One operation: refused if it does not fit; if it does, only the sponsor could be in its way. */
  ghost predicate Answers(r: Outcome, fits: bool, there: Entries, m: State, user: AccountId, sponsor: AccountId,
                          src: AccountId, after: seq<UserOp>, base: nat)
    requires sponsor in m.accounts
  {
    && (!fits ==> r.Err?)
    && (fits && r.Err? ==> Blames(r.error, sponsor))
    && (fits && r.Ok? ==> Stands(there, r.value, user, sponsor, src, after, base)
                          && r.value.accounts[sponsor].balance == m.accounts[sponsor].balance)
  }

  lemma CreateAnswers(there: Entries, m: State, user: AccountId, sponsor: AccountId, src: AccountId,
                      before: seq<UserOp>, op: UserOp, env: Env, k: nat)
    requires Stands(there, m, user, sponsor, src, before, env.baseReserve) && user != sponsor && env.baseReserve > 0
    requires op.Create? && op.destination.Strkey?
    ensures Answers(Step(m, CreateAccount(op.destination.id, 0), src, env, k), Fits(there, user, before, op), there, m,
                    user, sponsor, src, before + [op], env.baseReserve)
  {
    hide Step, Headroom, Untouched, Mirrors, Blames;
    var r := Step(m, CreateAccount(op.destination.id, 0), src, env, k);
    if before != [] {
      CreateLater(there, m, user, sponsor, before, op.destination.id, src, env, k);
    } else if op.destination.id == user {
      assert before + [op] == [op];
      CreateFirst(there, m, user, sponsor, op, src, env, k);
      if r.Ok? { Runs.StepKeepsSequences(m, CreateAccount(user, 0), src, env, k); }
    } else if r.Ok? {
      CreateNeedsSandwich(m, src, op.destination.id, env, k);
    }
  }

  lemma TrustAnswers(there: Entries, m: State, user: AccountId, sponsor: AccountId, src: AccountId,
                     before: seq<UserOp>, op: UserOp, env: Env, k: nat)
    requires Stands(there, m, user, sponsor, src, before, env.baseReserve) && user != sponsor
    requires op.Trust? && XdrAsset(op.asset).Ok?
    ensures Answers(Step(m, ChangeTrust(AssetLine(XdrAsset(op.asset).value), LimitOf(op.limit)), user, env, k),
                    Fits(there, user, before, op), there, m, user, sponsor, src, before + [op], env.baseReserve)
  {
    hide DoTrust, Headroom, Mirrors, Blames, TrustFits, XdrAsset, LimitOf;
    var asset := XdrAsset(op.asset).value;
    if before == [] {
      NobodyYet(m, ChangeTrust(AssetLine(asset), LimitOf(op.limit)), user, env, k);
    } else {
      MirrorHas(there, m, user, sponsor, before);
      if TrustFits(there, user, before, asset, LimitOf(op.limit)) {
        TrustTaken(there, m, user, sponsor, before, op, asset, env);
      } else {
        TrustRefused(there, m, user, sponsor, before, asset, LimitOf(op.limit), env);
      }
    }
  }

  lemma MirrorHas(there: Entries, m: State, user: AccountId, sponsor: AccountId, before: seq<UserOp>)
    requires Mirrors(there, m, user, sponsor, before)
    ensures user in m.accounts && m.sandwiches == map[user := sponsor]
  {
  }

  lemma ClaimAnswers(there: Entries, m: State, user: AccountId, sponsor: AccountId, src: AccountId,
                     before: seq<UserOp>, op: UserOp, env: Env, k: nat)
    requires Stands(there, m, user, sponsor, src, before, env.baseReserve) && user != sponsor
    requires op.Claim? && ClaimStands(there, m, user, before, op, env.closeTime)
    ensures Answers(Step(m, ClaimClaimable(ParseBalanceId(op.balanceId).value), user, env, k),
                    Fits(there, user, before, op), there, m, user, sponsor, src, before + [op], env.baseReserve)
  {
    hide DoClaim, Headroom, Mirrors, Blames, RoomFor, ParseBalanceId, MayClaim, ClaimedBefore;
    var b := ParseBalanceId(op.balanceId).value;
    if before == [] {
      NobodyYet(m, ClaimClaimable(b), user, env, k);
    } else {
      MirrorHas(there, m, user, sponsor, before);
      if b !in m.claimables {
        GoneIsGone(m, b, user, env, k);
      } else if RoomFor(there, user, before, there[b].asset, there[b].amount) {
        ClaimTaken(there, m, user, sponsor, before, op, b, env);
      } else {
        ClaimRefused(there, m, user, sponsor, before, b, env);
      }
    }
  }

  lemma NextAnswers(there: Entries, m: State, q: Quote, tx: Transaction, sponsor: AccountId, j: nat, env: Env)
    requires HasShape(q, tx) && q.source.Strkey? && q.mode.Bootstrap? && OnlyClaims(q.ops)
    requires j < |q.ops| && q.First() + j < |tx.ops| && q.source.id != sponsor && env.baseReserve > 0
    requires Stands(there, m, q.source.id, sponsor, tx.source, q.ops[..j], env.baseReserve)
    requires ClaimStands(there, m, q.source.id, q.ops[..j], q.ops[j], env.closeTime)
    ensures sponsor in m.accounts
    ensures var op := tx.ops[q.First() + j];
      Answers(Step(m, op.body, EffectiveSource(op, tx.source), env, q.First() + j),
              Fits(there, q.source.id, q.ops[..j], q.ops[j]), there, m, q.source.id, sponsor, tx.source,
              q.ops[..j] + [q.ops[j]], env.baseReserve)
  {
    hide HasShape, Step, Stands, ClaimStands, Fits, Answers, XdrAsset, LimitOf, ParseBalanceId;
    BuiltAs(q, tx, j);
    StandsHas(there, m, q.source.id, sponsor, tx.source, q.ops[..j], env.baseReserve);
    var user, k := q.source.id, q.First() + j;
    match q.ops[j]
    case Create(_) => CreateAnswers(there, m, user, sponsor, tx.source, q.ops[..j], q.ops[j], env, k);
    case Trust(_, _) => TrustAnswers(there, m, user, sponsor, tx.source, q.ops[..j], q.ops[j], env, k);
    case Claim(_) => ClaimAnswers(there, m, user, sponsor, tx.source, q.ops[..j], q.ops[j], env, k);
  }

  lemma StandsHas(there: Entries, m: State, user: AccountId, sponsor: AccountId, src: AccountId, before: seq<UserOp>,
                  base: nat)
    requires Stands(there, m, user, sponsor, src, before, base)
    ensures sponsor in m.accounts && src in m.accounts
  {
  }

  // ---------- The operations before the fee ----------

  /** The fee has been taken and nothing else has happened; the sponsor will not be the reason. */
  ghost predicate Starts(l: State, q: Quote, tx: Transaction, sponsor: AccountId, horizon: Horizon,
                         need: Option<ClaimNeed>, env: Env)
    requires q.source.Strkey?
  {
    && HasShape(q, tx) && q.mode.Bootstrap? && OnlyClaims(q.ops) && q.sponsor == Strkey(sponsor)
    && q.source.id != sponsor && env.baseReserve > 0
    && sponsor in l.accounts && tx.source in l.accounts && Headroom(l, tx.source, env.baseReserve) >= 0
    && Untouched(l, q.source.id) && l.sandwiches == map[]
    && Shows(horizon, l) && ShowsEntries(horizon, l) && AllOpen(horizon, q, env.closeTime, need)
    && forall i :: 0 <= i <= |tx.ops| && Exec(l, tx.ops[..i], tx.source, env).Err? ==>
         !Blames(Exec(l, tx.ops[..i], tx.source, env).error, sponsor)
  }

  lemma ClaimReady(l: State, q: Quote, tx: Transaction, horizon: Horizon, need: Option<ClaimNeed>, j: nat, env: Env)
    requires HasShape(q, tx) && q.source.Strkey? && OnlyClaims(q.ops)
    requires Shows(horizon, l) && ShowsEntries(horizon, l) && AllOpen(horizon, q, env.closeTime, need)
    requires j < |q.ops| && q.First() + |q.ops| < |tx.ops| && Exec(l, tx.ops[..q.First() + j], tx.source, env).Ok?
    ensures ClaimStands(l.claimables, Exec(l, tx.ops[..q.First() + j], tx.source, env).value, q.source.id, q.ops[..j],
                        q.ops[j], env.closeTime)
  {
    hide HasShape, Shows, ShowsEntries, ClaimOpen, Exec, ParseBalanceId, MayClaim, ClaimedIn, SameClaim, OnlyClaims;
    if q.ops[j].Claim? {
      assert ClaimOpen(horizon, q.source, q.ops[j], env.closeTime, need);
      OpenOnTheLedger(horizon, l, q.source.id, q.ops[j], env.closeTime, need);
      EarlierClaim(q, tx, j);
      NothingLeft(q, tx, q.First() + j);
      ExecClaims(l, tx.ops[..q.First() + j], tx.source, env);
      BeforeIs(q.ops, j);
    }
  }

  lemma BeforeIs(ops: seq<UserOp>, j: nat)
    requires j < |ops|
    ensures ClaimedBefore(ops[..j], ops[j]) <==> exists i :: 0 <= i < j && SameClaim(ops[i], ops[j])
  {
    hide SameClaim;
    forall i | 0 <= i < j && SameClaim(ops[i], ops[j]) ensures ClaimedBefore(ops[..j], ops[j]) {
      assert SameClaim(ops[..j][i], ops[j]);
    }
  }

  /** The operations fit so far. */
  predicate FitUpTo(there: Entries, user: AccountId, ops: seq<UserOp>, j: nat)
    requires j <= |ops|
  {
    forall i :: 0 <= i < j ==> Fits(there, user, ops[..i], ops[i])
  }

  lemma {:induction false} RunsWhileFits(l: State, q: Quote, tx: Transaction, sponsor: AccountId, horizon: Horizon,
                                         need: Option<ClaimNeed>, j: nat, env: Env)
    requires q.source.Strkey? && Starts(l, q, tx, sponsor, horizon, need, env) && q.Sandwiched()
    requires j <= |q.ops| && |q.ops| + 1 < |tx.ops|
    ensures var r := Exec(l, tx.ops[..1 + j], tx.source, env);
      && (r.Ok? <==> FitUpTo(l.claimables, q.source.id, q.ops, j))
      && (r.Ok? ==> Stands(l.claimables, r.value, q.source.id, sponsor, tx.source, q.ops[..j], env.baseReserve))
      && (r.Ok? ==> sponsor in r.value.accounts
                    && r.value.accounts[sponsor].balance == l.accounts[sponsor].balance)
  {
    hide HasShape, Step, Shows, ShowsEntries, AllOpen, Fits, Blames, Headroom, OnlyClaims, ClaimStands, Mirrors;
    if j == 0 {
      assert tx.ops[..1][..0] == [];
      assert Exec(l, tx.ops[..1][..0], tx.source, env) == Ok(l);
      BeginIs(q, tx, sponsor);
      BeginOpens(l, q.source.id, sponsor, env);
      OpenedHeadroom(l, q.source.id, sponsor, tx.source, env.baseReserve);
    } else {
      assert tx.ops[..1 + j][..j] == tx.ops[..j];
      RunsWhileFits(l, q, tx, sponsor, horizon, need, j - 1, env);
      var r := Exec(l, tx.ops[..j], tx.source, env);
      if r.Ok? {
        ClaimReady(l, q, tx, horizon, need, j - 1, env);
        NextAnswers(l.claimables, r.value, q, tx, sponsor, j - 1, env);
        assert q.ops[..j - 1] + [q.ops[j - 1]] == q.ops[..j];
        assert Exec(l, tx.ops[..1 + j], tx.source, env)
            == Step(r.value, tx.ops[j].body, EffectiveSource(tx.ops[j], tx.source), env, j);
      }
    }
  }

  lemma OpenedHeadroom(l: State, user: AccountId, sponsor: AccountId, src: AccountId, base: nat)
    requires src in l.accounts && Headroom(l, src, base) >= 0 && Untouched(l, user)
    ensures var m := l.(sandwiches := map[user := sponsor]); Headroom(m, src, base) >= 0 && Untouched(m, user)
  {
  }

  lemma {:induction false} CreateHasUnits(ops: seq<UserOp>, i: nat)
    requires i < |ops| && ops[i].Create?
    ensures Units(ops) >= 2
  {
    if i + 1 == |ops| {
    } else {
      CreateHasUnits(ops[..|ops| - 1], i);
    }
  }

  /** What fits starts with the account's creation, and so has a sandwich. */
  lemma FittingIsSandwiched(there: Entries, user: AccountId, q: Quote, base: nat)
    requires q.ops != [] && AllFit(there, user, q.ops) && q.reserveStroops == Units(q.ops) * base && base > 0
    ensures q.Sandwiched() && q.reserveStroops >= 2 * base
  {
    hide ParseBalanceId, XdrAsset, RoomFor, TrustFits;
    assert Fits(there, user, q.ops[..0], q.ops[0]);
    CreateHasUnits(q.ops, 0);
    ProductMonotone(2, Units(q.ops), base);
  }

  /** Without one, nothing can be created and nobody is there to act. */
  lemma NoSandwichNoRun(l: State, q: Quote, tx: Transaction, sponsor: AccountId, horizon: Horizon,
                        need: Option<ClaimNeed>, env: Env)
    requires q.source.Strkey? && Starts(l, q, tx, sponsor, horizon, need, env) && !q.Sandwiched()
    requires q.ops != [] && |q.ops| < |tx.ops|
    ensures Exec(l, tx.ops[..1], tx.source, env).Err?
  {
    hide HasShape, Step, Shows, ShowsEntries, AllOpen, Blames, Headroom;
    BuiltAs(q, tx, 0);
    assert tx.ops[..1][..0] == [];
    var op := tx.ops[0];
    if q.ops[0].Create? {
      if Step(l, op.body, tx.source, env, 0).Ok? { CreateNeedsSandwich(l, tx.source, op.body.newAccount, env, 0); }
    } else {
      NobodyYet(l, op.body, q.source.id, env, 0);
    }
  }

  /** The account when the fee is due: nothing open, and nothing it has to keep. */
  ghost predicate CanSpend(m: State, user: AccountId, base: nat) {
    user in m.accounts && m.sandwiches == map[] && MinBalance(m.accounts[user], base) <= 0
  }

  lemma EndCloses(there: Entries, m: State, user: AccountId, sponsor: AccountId, ops: seq<UserOp>, env: Env, k: nat)
    requires Mirrors(there, m, user, sponsor, ops)
    ensures var r := Step(m, EndSponsoring, user, env, k);
      && r.Ok? && r.value.accounts == m.accounts && CanSpend(r.value, user, env.baseReserve)
  {
    assert map[user := sponsor] - {user} == map[];
    var e := m.accounts[user];
    ProductMonotone(2 + e.subentries + e.sponsoring - e.sponsored, 0, env.baseReserve);
  }

  lemma EndIs(q: Quote, tx: Transaction)
    requires HasShape(q, tx) && q.source.Strkey? && q.Sandwiched() && |q.ops| + 1 < |tx.ops|
    ensures tx.ops[|q.ops| + 1].body == EndSponsoring
    ensures EffectiveSource(tx.ops[|q.ops| + 1], tx.source) == q.source.id
  {
    hide UserOperation, BeginOp, FeeOp;
  }

  /**
   * The operations before the fee run if and only if each fits: the user's own account is created first
   * and only there, lines are opened before what they are for, no balance is claimed twice, and nothing
   * overflows.
   */
  lemma FrontRunsExactlyWhen(l: State, q: Quote, tx: Transaction, sponsor: AccountId, horizon: Horizon,
                             need: Option<ClaimNeed>, env: Env)
    requires q.source.Strkey? && Starts(l, q, tx, sponsor, horizon, need, env)
    requires q.ops != [] && q.reserveStroops == Units(q.ops) * env.baseReserve && tx.ops != []
    ensures var r := Exec(l, tx.ops[..|tx.ops| - 1], tx.source, env);
      && (r.Ok? <==> AllFit(l.claimables, q.source.id, q.ops))
      && (r.Ok? ==> CanSpend(r.value, q.source.id, env.baseReserve) && sponsor in r.value.accounts
                    && r.value.accounts[sponsor].balance == l.accounts[sponsor].balance)
  {
    hide HasShape, Step, Shows, ShowsEntries, AllOpen, Fits, Blames, Headroom, OnlyClaims, Mirrors, Units;
    ShapeSize(q, tx);
    var n := |q.ops|;
    var front := tx.ops[..|tx.ops| - 1];
    if q.Sandwiched() {
      RunsWhileFits(l, q, tx, sponsor, horizon, need, n, env);
      assert q.ops[..n] == q.ops;
      assert front[..n + 1] == tx.ops[..1 + n] && front[n + 1] == tx.ops[n + 1];
      var r := Exec(l, tx.ops[..1 + n], tx.source, env);
      if r.Ok? {
        EndIs(q, tx);
        EndCloses(l.claimables, r.value, q.source.id, sponsor, q.ops, env, n + 1);
      }
    } else {
      if AllFit(l.claimables, q.source.id, q.ops) {
        FittingIsSandwiched(l.claimables, q.source.id, q, env.baseReserve);
      }
      NoSandwichNoRun(l, q, tx, sponsor, horizon, need, env);
      assert front[..1] == tx.ops[..1];
      StoppedStays(l, front, 1, tx.source, env);
    }
  }

  // ---------- The fee, and the whole ----------

  /** What the fee payment costs on the market, if it can be had at all. */
  function FeeCost(q: Quote, env: Env, k: nat): Option<nat> {
    if XdrAsset(q.feeToken).Ok? && XdrAssets(q.path).Ok? && q.chargeStroops >= 0
    then Ledger.Cost(env, k, XdrAsset(q.feeToken).value, XdrAssets(q.path).value, Native, q.chargeStroops)
    else None
  }

  lemma FeeGoesThrough(m: State, q: Quote, sponsor: AccountId, env: Env, k: nat, asset: Asset)
    requires FeeOp(q).Ok? && q.source.Strkey? && q.sponsor == Strkey(sponsor) && q.source.id != sponsor
    requires CanSpend(m, q.source.id, env.baseReserve) && sponsor in m.accounts
    requires m.accounts[sponsor].balance + q.chargeStroops <= I64_MAX && q.chargeStroops > 0 && q.sendMaxStroops > 0
    requires XdrAsset(q.feeToken) == Ok(asset)
    requires FeeCost(q, env, k).Some? && FeeCost(q, env, k).value <= q.sendMaxStroops
    requires IssuedBy(asset, q.source.id) || BalanceOf(m, q.source.id, asset) >= q.sendMaxStroops
    ensures var r := Step(m, FeeOp(q).value.body, q.source.id, env, k); r.Ok? && r.value.sandwiches == map[]
  {
    hide FeeOp, XdrAsset, XdrAssets, Ledger.Cost, MinBalance;
    Agreement.FeeFields(q);
  }

  lemma TokenIs(s: AssetText)
    requires XdrAsset(s).Ok?
    ensures s == Canonical(XdrAsset(s).value)
  {
  }

  /** Nothing of the account on the ledger, nothing open, and a lane that can afford to be one. */
  ghost predicate Fresh(d: Deal, l: State, env: Env) {
    && d.q.mode.Bootstrap? && OnlyClaims(d.q.ops) && d.q.source.Strkey? && Untouched(l, d.q.source.id)
    && l.sandwiches == map[]
    && (d.inner.tx.source in l.accounts && d.inner.tx.source != d.sponsorKey
        ==> Headroom(l, d.inner.tx.source, env.baseReserve) >= 0)
  }

  lemma PaidHas(l: State, s: Submission, fee: nat, env: Env, user: AccountId, src: AccountId)
    requires s.tx.source in l.accounts && s.feePayer in l.accounts && src in l.accounts && Untouched(l, user)
    requires Headroom(l, s.feePayer, env.baseReserve) >= fee
    requires src != s.feePayer ==> Headroom(l, src, env.baseReserve) >= 0
    ensures var paid := Charge(l, s, fee);
      && Untouched(paid, user) && paid.sandwiches == l.sandwiches && src in paid.accounts
      && Headroom(paid, src, env.baseReserve) >= 0
      && s.feePayer in paid.accounts && paid.accounts[s.feePayer].balance == l.accounts[s.feePayer].balance - fee
  {
    ChargeShape(l, s, fee, src);
    ChargeShape(l, s, fee, s.feePayer);
  }

  lemma IncludedAfford(l: State, s: Submission, fee: nat, env: Env)
    requires !Apply(l, s, fee, env).Rejected?
    ensures s.feePayer in l.accounts && Headroom(l, s.feePayer, env.baseReserve) >= s.feeBid >= fee
    ensures s.tx.ops != [] && s.tx.source in l.accounts
  {
  }

  lemma SentStarts(d: Deal, submitted: Submitted, w: SubmitWorld, l: State, fee: nat, env: Env)
    requires WasSent(d, submitted, w) && Saw(d, w, l, env) && Fresh(d, l, env)
    requires !Apply(l, SubmissionOf(d.envelope), fee, env).Rejected?
    ensures SubmissionOf(d.envelope).tx == d.inner.tx && SubmissionOf(d.envelope).feePayer == d.sponsorKey
    ensures d.inner.tx.source in l.accounts && d.sponsorKey in l.accounts && d.inner.tx.ops != []
    ensures var paid := Charge(l, SubmissionOf(d.envelope), fee);
      && Starts(paid, d.q, d.inner.tx, d.sponsorKey, w.claims,
                NeedFor(d.q.mode, d.q.feeToken, d.q.sendMaxStroops), env)
      && paid.claimables == l.claimables
      && paid.accounts[d.sponsorKey].balance == l.accounts[d.sponsorKey].balance - fee
  {
    hide WasSent, Honest, HasShape, Built, Shows, ShowsEntries, Apply, SubmissionOf, Charge, Exec, Headroom, Blames;
    hide Untouched, OnlyClaims, Spendable, ClaimOpen, SomeClaim, SomeNeeded, Arriving, Issued, Signed, FloatCheck;
    SentIsHonest(d, submitted, w);
    SentIsBuilt(d);
    FeeBounded(d);
    SentTerms(d, submitted, w);
    var s := SubmissionOf(d.envelope);
    IncludedAfford(l, s, fee, env);
    StillShown(w.claims, l, s, fee);
    PaidHas(l, s, fee, env, d.q.source.id, d.inner.tx.source);
    SentPassedClaims(d, submitted, w);
    forall i | 0 <= i <= |d.inner.tx.ops|
      ensures var r := Exec(Charge(l, s, fee), d.inner.tx.ops[..i], d.inner.tx.source, env);
        r.Err? ==> !Blames(r.error, d.sponsorKey)
    {
      SponsorHolds(d, submitted, w, l, fee, env, i);
    }
  }

  lemma SentTerms(d: Deal, submitted: Submitted, w: SubmitWorld)
    requires WasSent(d, submitted, w)
    ensures d.q.sponsor == Strkey(d.sponsorKey) && d.q.source != d.q.sponsor && d.params.baseReserve > 0
  {
    hide Issued, Signed, Passes;
  }

  /**
   * When a new account's quote goes through. On the ledger its checks looked at, included, with the fee
   * token's market still inside `sendMax` and the sponsor able to receive the charge: it succeeds if
   * and only if its operations fit, and otherwise fails at the sponsor's cost.
   */
  lemma SucceedsExactlyWhen(d: Deal, submitted: Submitted, w: SubmitWorld, l: State, fee: nat, env: Env)
    requires WasSent(d, submitted, w) && Saw(d, w, l, env) && Fresh(d, l, env)
    requires !Apply(l, SubmissionOf(d.envelope), fee, env).Rejected?
    requires d.inner.tx.ops != [] && d.q.sendMaxStroops > 0
    requires FeeCost(d.q, env, |d.inner.tx.ops| - 1).Some?
    requires FeeCost(d.q, env, |d.inner.tx.ops| - 1).value <= d.q.sendMaxStroops
    requires d.sponsorKey in l.accounts && l.accounts[d.sponsorKey].balance + d.q.chargeStroops <= I64_MAX
    ensures Apply(l, SubmissionOf(d.envelope), fee, env).Succeeded?
       <==> AllFit(l.claimables, d.q.source.id, d.q.ops)
  {
    hide WasSent, Honest, HasShape, Built, Starts, Exec, Step, CanSpend, AllFit, FeeCost, XdrAsset, Charge, FeeOp;
    hide Saw, BalanceOf, Canonical, Units, Headroom, SubmissionOf, Includable;
    SentStarts(d, submitted, w, l, fee, env);
    SentIsHonest(d, submitted, w);
    SentIsBuilt(d);
    ChargeCoversBid(d);
    SentHasOps(d, submitted, w);
    SentTerms(d, submitted, w);
    BidIsNatural(l, SubmissionOf(d.envelope), fee, env);
    var q, tx, ops := d.q, d.inner.tx, d.inner.tx.ops;
    var paid, front := Charge(l, SubmissionOf(d.envelope), fee), ops[..|ops| - 1];
    var base := env.baseReserve;
    SawTerms(d, w, l, env);
    FrontRunsExactlyWhen(paid, q, tx, d.sponsorKey, w.claims, NeedFor(q.mode, q.feeToken, q.sendMaxStroops), env);
    LastStep(paid, ops, tx.source, env);
    var r := Exec(paid, front, tx.source, env);
    if r.Ok? {
      FittingIsSandwiched(l.claimables, q.source.id, q, base);
      FeeIsLast(q, tx);
      PayerHoldsEnough(d, submitted, w, l, paid, env);
      FeeGoesThrough(r.value, q, d.sponsorKey, env, |ops| - 1, XdrAsset(q.feeToken).value);
    }
    AppliedIs(l, SubmissionOf(d.envelope), fee, env);
  }

  lemma AppliedIs(l: State, s: Submission, fee: nat, env: Env)
    requires !Apply(l, s, fee, env).Rejected?
    ensures s.tx.source in l.accounts && s.feePayer in l.accounts
    ensures var r := Exec(Charge(l, s, fee), s.tx.ops, s.tx.source, env);
      Apply(l, s, fee, env).Succeeded? <==> r.Ok? && r.value.sandwiches == map[]
  {
    hide Exec, Charge;
  }

  lemma BidIsNatural(l: State, s: Submission, fee: nat, env: Env)
    requires !Apply(l, s, fee, env).Rejected?
    ensures s.feeBid >= fee
  {
  }

  lemma SawTerms(d: Deal, w: SubmitWorld, l: State, env: Env)
    requires Saw(d, w, l, env)
    ensures env.baseReserve == d.params.baseReserve
  {
    hide Shows, ShowsEntries, Spendable;
  }

  lemma SentHasOps(d: Deal, submitted: Submitted, w: SubmitWorld)
    requires WasSent(d, submitted, w)
    ensures d.q.ops != []
  {
    hide Signed, Passes, Count, FirstError, Pricing.ChargeFor, AsU32;
  }

  lemma LastStep(l: State, ops: seq<Operation>, txSource: AccountId, env: Env)
    requires ops != []
    ensures var front := Exec(l, ops[..|ops| - 1], txSource, env);
      var op := ops[|ops| - 1];
      Exec(l, ops, txSource, env)
      == if front.Err? then front
         else Step(front.value, op.body, EffectiveSource(op, txSource), env, |ops| - 1)
  {
    hide Step;
  }

  lemma FeeIsLast(q: Quote, tx: Transaction)
    requires HasShape(q, tx) && q.source.Strkey? && q.mode.Bootstrap?
    ensures tx.ops != [] && FeeOp(q).Ok? && XdrAsset(q.feeToken).Ok?
    ensures tx.ops[|tx.ops| - 1].body == FeeOp(q).value.body
    ensures EffectiveSource(tx.ops[|tx.ops| - 1], tx.source) == q.source.id
  {
    hide UserOperation, BeginOp, EndOp, XdrAssets;
  }

  lemma PayerHoldsEnough(d: Deal, submitted: Submitted, w: SubmitWorld, l: State, paid: State, env: Env)
    requires WasSent(d, submitted, w) && Fresh(d, l, env) && XdrAsset(d.q.feeToken).Ok? && d.inner.tx.ops != []
    requires Starts(paid, d.q, d.inner.tx, d.sponsorKey, w.claims,
                    NeedFor(d.q.mode, d.q.feeToken, d.q.sendMaxStroops), env)
    ensures var r := Exec(paid, d.inner.tx.ops[..|d.inner.tx.ops| - 1], d.inner.tx.source, env);
      var asset := XdrAsset(d.q.feeToken).value;
      r.Ok? ==> IssuedBy(asset, d.q.source.id) || BalanceOf(r.value, d.q.source.id, asset) >= d.q.sendMaxStroops
  {
    hide WasSent, HasShape, Exec, Shows, ShowsEntries, AllOpen, OnlyClaims, XdrAsset, Canonical;
    var asset := XdrAsset(d.q.feeToken).value;
    TokenIs(d.q.feeToken);
    if !IssuedBy(asset, d.q.source.id) {
      assert BalanceOf(paid, d.q.source.id, asset) >= 0;
      PayerHolds(d, submitted, w, paid, env, asset);
    }
  }

  /** The market still inside `sendMax` is what the route check saw, if nothing has moved since. */
  lemma CostIsShown(d: Deal, submitted: Submitted, w: SubmitWorld, env: Env, k: nat)
    requires WasSent(d, submitted, w) && MarketAsShown(d, w, env, k)
    requires d.q.feeToken != NativeText && FeeOp(d.q).Ok? && d.q.chargeStroops > 0
    ensures FeeCost(d.q, env, k).Some? && FeeCost(d.q, env, k).value <= d.q.sendMaxStroops
  {
    hide WasSent, MarketAsShown, FeeOp, XdrAsset, XdrAssets;
    var need := ShownCost(d, submitted, w, env, k);
  }
}
