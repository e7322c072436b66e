// What operations sourced by others can do to the sponsor's account, one operation at a time.
module SponsorEffects {
  import opened Prelude
  import opened Stellar
  import opened Ledger

  /** Base reserves an operation can add to what one sponsor carries. */
  function BodyUnits(body: OpBody): nat {
    match body
    case CreateAccount(_, _) => 2
    case ChangeTrust(_, _) => 1
    case CreateClaimable(_, _, claimants) => |claimants|
    case _ => 0
  }

  /** Operations the sponsor may source without parting with anything. */
  predicate Harmless(body: OpBody) { body.BeginSponsoring? || (body.CreateAccount? && body.startingBalance == 0) }

  /** The sponsor loses no balance and takes on at most `units` reserves. */
  ghost predicate Kept(l: State, l': State, sponsor: AccountId, units: nat) {
    && sponsor in l.accounts && sponsor in l'.accounts
    && l'.accounts[sponsor].balance >= l.accounts[sponsor].balance
    && l'.accounts[sponsor].sponsoring <= l.accounts[sponsor].sponsoring + units
    && l'.accounts[sponsor].subentries == l.accounts[sponsor].subentries
    && l'.accounts[sponsor].sponsored == l.accounts[sponsor].sponsored
  }

  /** What the sponsor has above its minimum balance. */
  function Headroom(l: State, who: AccountId, base: nat): int
    requires who in l.accounts
  {
    l.accounts[who].balance - MinBalance(l.accounts[who], base)
  }

  /** A failure for which the sponsor's own balance or reserves are the reason. */
  predicate Blames(f: Failure, sponsor: AccountId) {
    f == LowReserve(sponsor) || f == Underfunded(sponsor) || f == NoAccount(sponsor)
  }

  lemma DebitKeeps(l: State, who: AccountId, asset: Asset, n: nat, base: nat, sponsor: AccountId)
    requires sponsor in l.accounts && (who != sponsor || (n == 0 && asset.Native?))
    ensures Debit(l, who, asset, n, base).Ok? ==> Kept(l, Debit(l, who, asset, n, base).value, sponsor, 0)
    ensures Debit(l, who, asset, n, base).Err? && Headroom(l, sponsor, base) >= 0
        ==> !Blames(Debit(l, who, asset, n, base).error, sponsor)
  {
  }

  lemma DepositKeeps(l: State, who: AccountId, asset: Asset, n: nat, sponsor: AccountId)
    requires sponsor in l.accounts
    ensures Deposit(l, who, asset, n).Ok? ==> Kept(l, Deposit(l, who, asset, n).value, sponsor, 0)
    ensures Deposit(l, who, asset, n).Err? ==> !Blames(Deposit(l, who, asset, n).error, sponsor)
  {
  }

  lemma MinBalanceGrows(e: AccountEntry, units: nat, base: nat)
    ensures MinBalance(e.(sponsoring := e.sponsoring + units), base) == MinBalance(e, base) + units * base
  {
  }

  lemma SponsorKeeps(l: State, who: AccountId, units: nat, base: nat, sponsor: AccountId)
    requires sponsor in l.accounts
    ensures var r := Ledger.Sponsor(l, who, units, base); r.Ok? ==> Kept(l, r.value, sponsor, units)
    ensures Ledger.Sponsor(l, who, units, base).Err? && Headroom(l, sponsor, base) >= units * base
        ==> !Blames(Ledger.Sponsor(l, who, units, base).error, sponsor)
  {
    MinBalanceGrows(l.accounts[sponsor], units, base);
    hide MinBalance;
  }

  lemma KeptThrough(l: State, m: State, n: State, sponsor: AccountId, u: nat, v: nat)
    requires Kept(l, m, sponsor, u) && Kept(m, n, sponsor, v)
    ensures Kept(l, n, sponsor, u + v)
  {
  }

  /** Headroom shrinks by at most the reserves taken on. */
  lemma KeptHeadroom(l: State, l': State, sponsor: AccountId, units: nat, base: nat)
    requires Kept(l, l', sponsor, units)
    ensures Headroom(l', sponsor, base) >= Headroom(l, sponsor, base) - units * base
  {
    var e, e' := l.accounts[sponsor], l'.accounts[sponsor];
    var grown := e.(sponsoring := e.sponsoring + units);
    MinBalanceGrows(e, units, base);
    assert 2 + e'.subentries + e'.sponsoring - e'.sponsored
        <= 2 + grown.subentries + grown.sponsoring - grown.sponsored;
    ProductMonotone(2 + e'.subentries + e'.sponsoring - e'.sponsored,
                    2 + grown.subentries + grown.sponsoring - grown.sponsored, base);
  }

  lemma ProductMonotone(a: int, b: int, base: nat)
    requires a <= b
    ensures a * base <= b * base
  {
  }

  /** One step's verdict on the sponsor: what it keeps if the step succeeds, and never its fault if not. */
  ghost predicate Spares(l: State, r: Outcome, sponsor: AccountId, units: nat, base: nat)
    requires sponsor in l.accounts
  {
    match r
    case Ok(l') => Kept(l, l', sponsor, units)
    case Err(f) => Headroom(l, sponsor, base) >= units * base ==> !Blames(f, sponsor)
  }

  lemma CreateSpares(l: State, src: AccountId, id: AccountId, funding: int, env: Env, sponsor: AccountId)
    requires sponsor in l.accounts && (src != sponsor || funding == 0)
    ensures Spares(l, DoCreate(l, src, id, funding, env), sponsor, 2, env.baseReserve)
  {
    if funding >= 0 && id !in l.accounts {
      DebitKeeps(l, src, Native, funding, env.baseReserve, sponsor);
      var d := Debit(l, src, Native, funding, env.baseReserve);
      if d.Ok? && id in l.sandwiches {
        var l1 := SetAccount(d.value, id, AccountEntry(funding, env.startingSequence, 0, 0, 2));
        assert Kept(l, l1, sponsor, 0);
        KeptHeadroom(l, l1, sponsor, 0, env.baseReserve);
        SponsorKeeps(l1, l.sandwiches[id], 2, env.baseReserve, sponsor);
      }
    }
    hide Debit, Ledger.Sponsor, MinBalance;
  }

  lemma PaySpares(l: State, src: AccountId, to: AccountId, asset: Asset, n: int, env: Env, sponsor: AccountId)
    requires sponsor in l.accounts && src != sponsor
    ensures Spares(l, DoPay(l, src, to, asset, n, env), sponsor, 0, env.baseReserve)
  {
    if n > 0 {
      DepositKeeps(l, to, asset, n, sponsor);
      var d := Deposit(l, to, asset, n);
      if d.Ok? {
        KeptHeadroom(l, d.value, sponsor, 0, env.baseReserve);
        DebitKeeps(d.value, src, asset, n, env.baseReserve, sponsor);
      }
    }
    hide Debit, Deposit, MinBalance;
  }

  lemma StrictSendSpares(l: State, src: AccountId, body: OpBody, env: Env, k: nat, sponsor: AccountId)
    requires body.PathStrictSend? && sponsor in l.accounts && src != sponsor
    ensures Spares(l, DoStrictSend(l, src, body, env, k), sponsor, 0, env.baseReserve)
  {
    if body.sendAmount > 0 && body.destMin > 0 {
      DebitKeeps(l, src, body.sendAsset, body.sendAmount, env.baseReserve, sponsor);
      var d := Debit(l, src, body.sendAsset, body.sendAmount, env.baseReserve);
      var got := Proceeds(env, k, body.sendAsset, body.path, body.destAsset, body.sendAmount);
      if d.Ok? && got.Some? {
        DepositKeeps(d.value, body.destination, body.destAsset, got.value, sponsor);
      }
    }
    hide Debit, Deposit, Proceeds, MinBalance;
  }

  lemma StrictReceiveSpares(l: State, src: AccountId, body: OpBody, env: Env, k: nat, sponsor: AccountId)
    requires body.PathStrictReceive? && sponsor in l.accounts && src != sponsor
    ensures Spares(l, DoStrictReceive(l, src, body, env, k), sponsor, 0, env.baseReserve)
  {
    if body.sendMax > 0 && body.destAmount > 0 {
      DepositKeeps(l, body.destination, body.destAsset, body.destAmount, sponsor);
      var d := Deposit(l, body.destination, body.destAsset, body.destAmount);
      var cost := Cost(env, k, body.sendAsset, body.path, body.destAsset, body.destAmount);
      if d.Ok? && cost.Some? {
        KeptHeadroom(l, d.value, sponsor, 0, env.baseReserve);
        DebitKeeps(d.value, src, body.sendAsset, cost.value, env.baseReserve, sponsor);
      }
    }
    hide Debit, Deposit, Cost, MinBalance;
  }

  lemma ClaimSpares(l: State, src: AccountId, id: BalanceId, env: Env, sponsor: AccountId)
    requires sponsor in l.accounts
    ensures Spares(l, DoClaim(l, src, id, env), sponsor, 0, env.baseReserve)
  {
    if id in l.claimables && l.claimables[id].amount >= 0 {
      DepositKeeps(l, src, l.claimables[id].asset, l.claimables[id].amount, sponsor);
    }
    hide Deposit, MayClaim, MinBalance;
  }

  lemma TrustSpares(l: State, src: AccountId, asset: Asset, limit: int, env: Env, sponsor: AccountId)
    requires sponsor in l.accounts && src in l.accounts && src != sponsor
    ensures Spares(l, DoTrust(l, src, asset, limit, env), sponsor, 1, env.baseReserve)
  {
    if src in l.sandwiches {
      var e := l.accounts[src].(
        subentries := l.accounts[src].subentries + 1, sponsored := l.accounts[src].sponsored + 1);
      var l1 := SetAccount(l.(lines := l.lines[(src, asset) := LineEntry(0, limit, Some(l.sandwiches[src]))]), src, e);
      SponsorKeeps(l1, l.sandwiches[src], 1, env.baseReserve, sponsor);
      assert Headroom(l1, sponsor, env.baseReserve) == Headroom(l, sponsor, env.baseReserve);
    }
    hide Ledger.Sponsor, MinBalance;
  }

  lemma LeaveSpares(l: State, src: AccountId, asset: Asset, n: int, claimants: seq<Claimant>, env: Env, k: nat,
                    sponsor: AccountId)
    requires sponsor in l.accounts && src != sponsor
    ensures Spares(l, DoLeave(l, src, asset, n, claimants, env, k), sponsor, |claimants|, env.baseReserve)
  {
    if n > 0 {
      DebitKeeps(l, src, asset, n, env.baseReserve, sponsor);
      var d := Debit(l, src, asset, n, env.baseReserve);
      if d.Ok? {
        var carrier := if src in l.sandwiches then l.sandwiches[src] else src;
        var entry := ClaimableEntry(asset, n, multiset(claimants), env.closeTime, carrier);
        var l1 := d.value.(claimables := d.value.claimables[env.freshId(k) := entry]);
        assert Kept(l, l1, sponsor, 0);
        KeptHeadroom(l, l1, sponsor, 0, env.baseReserve);
        SponsorKeeps(l1, carrier, |claimants|, env.baseReserve, sponsor);
      }
    }
    hide Debit, Ledger.Sponsor, MinBalance, Destinations;
  }

  /** No operation sourced by somebody else touches what the sponsor has, beyond its own reserve units. */
  lemma StepSpares(l: State, body: OpBody, src: AccountId, env: Env, k: nat, sponsor: AccountId)
    requires sponsor in l.accounts && (src != sponsor || Harmless(body))
    ensures Spares(l, Step(l, body, src, env, k), sponsor, BodyUnits(body), env.baseReserve)
  {
    hide DoCreate, DoPay, DoStrictSend, DoStrictReceive, DoClaim, DoTrust, DoLeave, MinBalance;
    if src in l.accounts {
      match body
      case CreateAccount(id, funding) => CreateSpares(l, src, id, funding, env, sponsor);
      case Payment(to, asset, n) => PaySpares(l, src, to, asset, n, env, sponsor);
      case PathStrictSend(_, _, _, _, _, _) => StrictSendSpares(l, src, body, env, k, sponsor);
      case PathStrictReceive(_, _, _, _, _, _) => StrictReceiveSpares(l, src, body, env, k, sponsor);
      case ClaimClaimable(id) => ClaimSpares(l, src, id, env, sponsor);
      case ChangeTrust(AssetLine(asset), limit) => TrustSpares(l, src, asset, limit, env, sponsor);
      case CreateClaimable(asset, n, claimants) => LeaveSpares(l, src, asset, n, claimants, env, k, sponsor);
      case _ =>
    }
  }

  // ---------- Whole lists ----------

  function OpsUnits(ops: seq<Operation>): nat {
    if ops == [] then 0 else OpsUnits(ops[..|ops| - 1]) + BodyUnits(ops[|ops| - 1].body)
  }

  /** Every operation is somebody else's, or harmless. */
  ghost predicate SparingOps(ops: seq<Operation>, txSource: AccountId, sponsor: AccountId) {
    forall i :: 0 <= i < |ops| ==> EffectiveSource(ops[i], txSource) != sponsor || Harmless(ops[i].body)
  }

  /**
   * Over a whole list: if it runs through, the sponsor keeps its balance and carries at most the
   * list's reserve units more; if it stops, the sponsor is not the reason, provided the sponsor's
   * headroom covered those units at the start. Reserves are locked before any charge arrives.
   */
  lemma {:induction false} ExecSpares(l: State, ops: seq<Operation>, txSource: AccountId, env: Env, sponsor: AccountId)
    requires sponsor in l.accounts && SparingOps(ops, txSource, sponsor)
    ensures Spares(l, Exec(l, ops, txSource, env), sponsor, OpsUnits(ops), env.baseReserve)
  {
    hide Step, Headroom, Blames, Harmless;
    if ops == [] {
    } else {
      var front, op := ops[..|ops| - 1], ops[|ops| - 1];
      assert forall i :: 0 <= i < |front| ==> front[i] == ops[i];
      ExecSpares(l, front, txSource, env, sponsor);
      var r := Exec(l, front, txSource, env);
      ProductSplit(OpsUnits(front), BodyUnits(op.body), env.baseReserve);
      if r.Ok? {
        KeptHeadroom(l, r.value, sponsor, OpsUnits(front), env.baseReserve);
        StepSpares(r.value, op.body, EffectiveSource(op, txSource), env, |ops| - 1, sponsor);
        var s := Step(r.value, op.body, EffectiveSource(op, txSource), env, |ops| - 1);
        if s.Ok? { KeptThrough(l, r.value, s.value, sponsor, OpsUnits(front), BodyUnits(op.body)); }
      }
    }
  }

  lemma ProductSplit(a: nat, b: nat, base: nat)
    ensures (a + b) * base == a * base + b * base && a * base >= 0 && b * base >= 0
  {
  }

  // ---------- The other way round: what is locked was covered ----------

  /** If the sponsor carries more than before, it has been checked against its minimum balance since. */
  ghost predicate Checked(l: State, r: Outcome, sponsor: AccountId, base: nat)
    requires sponsor in l.accounts
  {
    r.Ok? ==> sponsor in r.value.accounts
              && (r.value.accounts[sponsor].sponsoring > l.accounts[sponsor].sponsoring
                  ==> Headroom(r.value, sponsor, base) >= 0)
  }

  lemma SponsorChecked(l: State, who: AccountId, units: nat, base: nat, sponsor: AccountId)
    requires sponsor in l.accounts
    ensures Checked(l, Ledger.Sponsor(l, who, units, base), sponsor, base)
  {
  }

  /** What comes before the check may move balances, but not what the sponsor carries. */
  lemma CheckedLast(l: State, m: State, r: Outcome, sponsor: AccountId, base: nat)
    requires sponsor in l.accounts && sponsor in m.accounts
    requires m.accounts[sponsor].sponsoring <= l.accounts[sponsor].sponsoring
    requires Checked(m, r, sponsor, base)
    ensures Checked(l, r, sponsor, base)
  {
  }

  lemma CreateChecked(l: State, src: AccountId, id: AccountId, funding: int, env: Env, sponsor: AccountId)
    requires sponsor in l.accounts && (src != sponsor || funding == 0)
    ensures Checked(l, DoCreate(l, src, id, funding, env), sponsor, env.baseReserve)
  {
    hide Debit, Ledger.Sponsor, MinBalance, Headroom;
    if funding >= 0 && id !in l.accounts {
      DebitKeeps(l, src, Native, funding, env.baseReserve, sponsor);
      var d := Debit(l, src, Native, funding, env.baseReserve);
      if d.Ok? && id in l.sandwiches {
        var l1 := SetAccount(d.value, id, AccountEntry(funding, env.startingSequence, 0, 0, 2));
        SponsorChecked(l1, l.sandwiches[id], 2, env.baseReserve, sponsor);
        CheckedLast(l, l1, Ledger.Sponsor(l1, l.sandwiches[id], 2, env.baseReserve), sponsor, env.baseReserve);
      }
    }
  }

  lemma TrustChecked(l: State, src: AccountId, asset: Asset, limit: int, env: Env, sponsor: AccountId)
    requires sponsor in l.accounts && src in l.accounts && src != sponsor
    ensures Checked(l, DoTrust(l, src, asset, limit, env), sponsor, env.baseReserve)
  {
    hide Ledger.Sponsor, MinBalance, Headroom;
    if src in l.sandwiches {
      var e := l.accounts[src].(
        subentries := l.accounts[src].subentries + 1, sponsored := l.accounts[src].sponsored + 1);
      var l1 := SetAccount(l.(lines := l.lines[(src, asset) := LineEntry(0, limit, Some(l.sandwiches[src]))]), src, e);
      SponsorChecked(l1, l.sandwiches[src], 1, env.baseReserve, sponsor);
    }
  }

  lemma LeaveChecked(l: State, src: AccountId, asset: Asset, n: int, claimants: seq<Claimant>, env: Env, k: nat,
                     sponsor: AccountId)
    requires sponsor in l.accounts && src != sponsor
    ensures Checked(l, DoLeave(l, src, asset, n, claimants, env, k), sponsor, env.baseReserve)
  {
    hide Debit, Ledger.Sponsor, MinBalance, Destinations, Headroom;
    if n > 0 {
      DebitKeeps(l, src, asset, n, env.baseReserve, sponsor);
      var d := Debit(l, src, asset, n, env.baseReserve);
      if d.Ok? {
        var carrier := if src in l.sandwiches then l.sandwiches[src] else src;
        var entry := ClaimableEntry(asset, n, multiset(claimants), env.closeTime, carrier);
        var l1 := d.value.(claimables := d.value.claimables[env.freshId(k) := entry]);
        SponsorChecked(l1, carrier, |claimants|, env.baseReserve, sponsor);
        CheckedLast(l, l1, Ledger.Sponsor(l1, carrier, |claimants|, env.baseReserve), sponsor, env.baseReserve);
      }
    }
  }

  lemma StepChecked(l: State, body: OpBody, src: AccountId, env: Env, k: nat, sponsor: AccountId)
    requires sponsor in l.accounts && (src != sponsor || Harmless(body))
    ensures Checked(l, Step(l, body, src, env, k), sponsor, env.baseReserve)
  {
    hide DoCreate, DoPay, DoStrictSend, DoStrictReceive, DoClaim, DoTrust, DoLeave, MinBalance, Headroom, Blames;
    StepSpares(l, body, src, env, k, sponsor);
    if src in l.accounts {
      match body
      case CreateAccount(id, funding) => CreateChecked(l, src, id, funding, env, sponsor);
      case ChangeTrust(AssetLine(asset), limit) => TrustChecked(l, src, asset, limit, env, sponsor);
      case CreateClaimable(asset, n, claimants) => LeaveChecked(l, src, asset, n, claimants, env, k, sponsor);
      case _ =>
    }
  }

  /** Over a whole list: what the sponsor has ended up carrying, its headroom has been held against. */
  lemma {:induction false} ExecChecked(l: State, ops: seq<Operation>, txSource: AccountId, env: Env, sponsor: AccountId)
    requires sponsor in l.accounts && SparingOps(ops, txSource, sponsor)
    ensures Checked(l, Exec(l, ops, txSource, env), sponsor, env.baseReserve)
  {
    hide Step, Headroom, Blames, Harmless;
    if ops == [] {
    } else {
      var front, op := ops[..|ops| - 1], ops[|ops| - 1];
      assert forall i :: 0 <= i < |front| ==> front[i] == ops[i];
      ExecChecked(l, front, txSource, env, sponsor);
      var r := Exec(l, front, txSource, env);
      if r.Ok? {
        StepChecked(r.value, op.body, EffectiveSource(op, txSource), env, |ops| - 1, sponsor);
        StepSpares(r.value, op.body, EffectiveSource(op, txSource), env, |ops| - 1, sponsor);
        var s := Step(r.value, op.body, EffectiveSource(op, txSource), env, |ops| - 1);
        if s.Ok? && s.value.accounts[sponsor].sponsoring <= r.value.accounts[sponsor].sponsoring {
          FreedHeadroom(r.value, s.value, sponsor, BodyUnits(op.body), env.baseReserve);
        }
      }
    }
  }

  lemma FreedHeadroom(l: State, l': State, sponsor: AccountId, units: nat, base: nat)
    requires Kept(l, l', sponsor, units)
    requires l'.accounts[sponsor].sponsoring <= l.accounts[sponsor].sponsoring
    ensures Headroom(l', sponsor, base) >= Headroom(l, sponsor, base)
  {
    KeptHeadroom(l, l', sponsor, 0, base);
  }
}
