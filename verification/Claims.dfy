// Whether the money a new account is to live on is really there, and enough.
module Claims {
  import opened Prelude
  import opened Names
  import opened Plans
  import opened Decimal
  import opened Predicates
  import Calendar

  /** One claimable balance as Horizon returns it. */
  datatype HorizonClaimant = HorizonClaimant(destination: Address, condition: Node)

  datatype ClaimableRecord = ClaimableRecord(
    asset: AssetText, amount: string, claimants: seq<HorizonClaimant>, lastModified: Option<string>)

  datatype Lookup = Found(record: ClaimableRecord) | Missing | Unavailable

  type Horizon = string -> Lookup

  function CreatedAt(r: ClaimableRecord): Option<int> {
    var stamp :- r.lastModified;
    Calendar.ParseStamp(stamp)
  }

  predicate ClaimableBy(r: ClaimableRecord, who: Address, now: int) {
    exists i :: 0 <= i < |r.claimants| && r.claimants[i].destination == who
                && HoldsAt(r.claimants[i].condition, now, CreatedAt(r), 0)
  }

  datatype ClaimNeed = ClaimNeed(asset: AssetText, minStroops: int)

  /** Only a new account has to pay for itself out of what it claims. */
  function NeedFor(mode: Mode, feeToken: AssetText, sendMax: int): Option<ClaimNeed> {
    if mode.Bootstrap? then Some(ClaimNeed(feeToken, sendMax)) else None
  }

  predicate InNeeded(horizon: Horizon, op: UserOp, need: Option<ClaimNeed>) {
    op.Claim? && need.Some? && horizon(op.balanceId).Found? && horizon(op.balanceId).record.asset == need.value.asset
  }

  /** One claim can go ahead: it exists, is open to the source, and is readable if it counts. */
  predicate ClaimOpen(horizon: Horizon, source: Address, op: UserOp, now: int, need: Option<ClaimNeed>) {
    op.Claim? ==>
      && horizon(op.balanceId).Found?
      && ClaimableBy(horizon(op.balanceId).record, source, now)
      && (InNeeded(horizon, op, need) ==> ParseAmountStroops(horizon(op.balanceId).record.amount).Some?)
  }

  /** Arriving funds in the needed asset. */
  function Arriving(horizon: Horizon, ops: seq<UserOp>, need: Option<ClaimNeed>): nat {
    if ops == [] then 0
    else
      var op := ops[|ops| - 1];
      Arriving(horizon, ops[..|ops| - 1], need)
      + if InNeeded(horizon, op, need) && ParseAmountStroops(horizon(op.balanceId).record.amount).Some?
        then Max(ParseAmountStroops(horizon(op.balanceId).record.amount).value, 0) else 0
  }

  predicate SomeNeeded(horizon: Horizon, ops: seq<UserOp>, need: Option<ClaimNeed>) {
    exists i :: 0 <= i < |ops| && InNeeded(horizon, ops[i], need)
  }

  predicate SomeClaim(ops: seq<UserOp>) { exists i :: 0 <= i < |ops| && ops[i].Claim? }

  /** When the check passes: every claim is open, and what must pay the fee arrives and suffices. */
  predicate ClaimsSuffice(horizon: Horizon, source: Address, ops: seq<UserOp>, mode: Mode, now: int,
                          need: Option<ClaimNeed>)
  {
    && (forall i :: 0 <= i < |ops| ==> ClaimOpen(horizon, source, ops[i], now, need))
    && (need.Some? && mode.Bootstrap? && SomeClaim(ops) ==> SomeNeeded(horizon, ops, need))
    && (need.Some? && SomeNeeded(horizon, ops, need) ==>
          Min(Arriving(horizon, ops, need), I64_MAX) >= need.value.minStroops)
  }

  predicate InToken(horizon: Horizon, op: UserOp, token: AssetText) {
    op.Claim? && horizon(op.balanceId).Found? && horizon(op.balanceId).record.asset == token
  }

  /**
   * What is asked of the claims of a quote. Each exists and is open to the source. A sponsored quote asks
   * no more. In bootstrap, claims in the fee token have to be readable and together hold `sendMax`; and
   * where there are claims, some of them have to be in the fee token.
   */
  lemma SufficesExactly(horizon: Horizon, source: Address, ops: seq<UserOp>, mode: Mode, now: int, feeToken: AssetText,
                        sendMax: int)
    ensures ClaimsSuffice(horizon, source, ops, mode, now, NeedFor(mode, feeToken, sendMax)) <==>
      && (forall i :: 0 <= i < |ops| && ops[i].Claim? ==>
            horizon(ops[i].balanceId).Found? && ClaimableBy(horizon(ops[i].balanceId).record, source, now))
      && (mode.Bootstrap? ==>
            && (forall i :: 0 <= i < |ops| && InToken(horizon, ops[i], feeToken) ==>
                  ParseAmountStroops(horizon(ops[i].balanceId).record.amount).Some?)
            && if exists i :: 0 <= i < |ops| && InToken(horizon, ops[i], feeToken)
               then
                 Min(Arriving(horizon, ops, Some(ClaimNeed(feeToken, sendMax))), 9_223_372_036_854_775_807) >= sendMax
               else forall i :: 0 <= i < |ops| ==> !ops[i].Claim?)
  {
    hide ClaimableBy, ParseAmountStroops, Arriving;
    var need := NeedFor(mode, feeToken, sendMax);
    assert mode.Bootstrap? ==> forall op :: InNeeded(horizon, op, need) <==> InToken(horizon, op, feeToken);
    assert mode.Sponsored? ==> forall op :: !InNeeded(horizon, op, need);
  }

  /** `ensure_claims`: one pass with a saturating total and two flags. */
  method EnsureClaims(horizon: Horizon, source: Address, ops: seq<UserOp>, mode: Mode, now: int,
                      need: Option<ClaimNeed>)
    returns (r: Result<(), Error>)
    ensures r.Ok? <==> ClaimsSuffice(horizon, source, ops, mode, now, need)
    ensures r.Err? ==> r.error.Unclaimable? || r.error.HorizonFailed?
    ensures r.Err? && r.error.HorizonFailed? <==>
            exists i :: && 0 <= i < |ops| && ops[i].Claim? && horizon(ops[i].balanceId).Unavailable?
                        && forall j :: 0 <= j < i ==> ClaimOpen(horizon, source, ops[j], now, need)
  {
    hide ClaimableBy, ParseAmountStroops, SomeClaim, SomeNeeded, Arriving, ClaimOpen, InNeeded;
    var payable, sawFeeAsset, sawClaim := 0, false, false;
    NothingYet(horizon, need);
    for i := 0 to |ops|
      invariant forall j :: 0 <= j < i ==> ClaimOpen(horizon, source, ops[j], now, need)
      invariant forall j :: 0 <= j < i && ops[j].Claim? ==> !horizon(ops[j].balanceId).Unavailable?
      invariant sawClaim <==> SomeClaim(ops[..i])
      invariant sawFeeAsset <==> SomeNeeded(horizon, ops[..i], need)
      invariant payable == Min(Arriving(horizon, ops[..i], need), I64_MAX)
    {
      var op := ops[i];
      assert ops[..i + 1] == ops[..i] + [op];
      OneMore(horizon, source, ops[..i], op, now, need);
      if op.Claim? {
        sawClaim := true;
        var found := horizon(op.balanceId);
        if found.Unavailable? { return Err(HorizonFailed); }
        if found.Missing? { return Err(Unclaimable("claimable balance does not exist")); }
        var balance := found.record;
        if !ClaimableBy(balance, source, now) { return Err(Unclaimable("cannot claim yet")); }
        if need.Some? && balance.asset == need.value.asset {
          sawFeeAsset := true;
          var amount := ParseAmountStroops(balance.amount);
          if amount.None? { return Err(Unclaimable("claimable balance amount is unreadable")); }
          payable := Saturate(payable + amount.value);
        }
      }
    }
    assert ops[..|ops|] == ops;
    if need.Some? {
      if mode == Bootstrap && sawClaim && !sawFeeAsset {
        return Err(Unclaimable("the arriving funds are not in the fee token"));
      }
      if sawFeeAsset && payable < need.value.minStroops {
        return Err(Unclaimable("the arriving funds do not cover the fee"));
      }
    }
    return Ok(());
  }

  lemma NothingYet(horizon: Horizon, need: Option<ClaimNeed>)
    ensures !SomeClaim([]) && !SomeNeeded(horizon, [], need) && Arriving(horizon, [], need) == 0
  {
  }

  /** What one operation more means for the flags and the total. */
  lemma OneMore(horizon: Horizon, source: Address, front: seq<UserOp>, op: UserOp, now: int, need: Option<ClaimNeed>)
    ensures var all := front + [op]; var found := if op.Claim? then horizon(op.balanceId) else Missing;
      var counts := found.Found? && need.Some? && found.record.asset == need.value.asset;
      && (SomeClaim(all) <==> SomeClaim(front) || op.Claim?)
      && (SomeNeeded(horizon, all, need) <==> SomeNeeded(horizon, front, need) || counts)
      && (ClaimOpen(horizon, source, op, now, need) <==>
            (op.Claim? ==> found.Found? && ClaimableBy(found.record, source, now)
                           && (counts ==> ParseAmountStroops(found.record.amount).Some?)))
      && (counts && ParseAmountStroops(found.record.amount).Some? ==>
            0 <= ParseAmountStroops(found.record.amount).value <= I64_MAX)
      && Arriving(horizon, all, need) == Arriving(horizon, front, need)
           + if counts && ParseAmountStroops(found.record.amount).Some?
             then ParseAmountStroops(found.record.amount).value else 0
  {
    hide ClaimableBy, ParseAmountStroops, SomeClaim, SomeNeeded;
    ExtendFlags(horizon, front, op, need);
    var all := front + [op];
    assert all[..|all| - 1] == front;
    if op.Claim? && horizon(op.balanceId).Found? && ParseAmountStroops(horizon(op.balanceId).record.amount).Some? {
      ParsedInRange(horizon(op.balanceId).record.amount);
    }
  }

  lemma ParsedInRange(s: string)
    requires ParseAmountStroops(s).Some?
    ensures 0 <= ParseAmountStroops(s).value <= I64_MAX
  {
  }

  lemma ExtendFlags(horizon: Horizon, front: seq<UserOp>, op: UserOp, need: Option<ClaimNeed>)
    ensures SomeClaim(front + [op]) <==> SomeClaim(front) || op.Claim?
    ensures SomeNeeded(horizon, front + [op], need) <==> SomeNeeded(horizon, front, need) || InNeeded(horizon, op, need)
  {
    hide InNeeded;
    var all := front + [op];
    assert all[|front|] == op;
    assert forall i :: 0 <= i < |front| ==> all[i] == front[i];
    if SomeClaim(front) { var i :| 0 <= i < |front| && front[i].Claim?; assert all[i].Claim?; }
    if SomeNeeded(horizon, front, need) {
      var i :| 0 <= i < |front| && InNeeded(horizon, front[i], need);
      assert InNeeded(horizon, all[i], need);
    }
    if InNeeded(horizon, op, need) { assert InNeeded(horizon, all[|front|], need); }
  }
}
