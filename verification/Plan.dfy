// What the caller asked for, and what it locks up in reserves.
module Plans {
  import opened Prelude
  import opened Names

  /** The allowlist of operations the service can express. */
  datatype UserOp =
    | Create(destination: Address)
    | Pay(destination: Address, asset: AssetText, amount: string)
    | Swap(destination: Address, sendAsset: AssetText, sendAmount: string,
           destAsset: AssetText, destMin: string, path: seq<AssetText>)
    | Trust(asset: AssetText, limit: Option<string>)
    | Claim(balanceId: string)
    | Leave(destination: Address, asset: AssetText, amount: string)

  datatype Mode = Sponsored | Bootstrap

  datatype Error =
    | BadAsset(asset: AssetText)
    | NativeTrustline
    | BadAccount(account: Address)
    | BadAmount(text: string)
    | NoPath
    | QuoteExpired(atLedger: nat)
    | Mismatch(why: string)
    | Unclaimable(why: string)
    | PathMoved(why: string)
    | Unsupported(why: string)
    | HorizonFailed

  datatype Plan = Plan(mode: Mode, ops: seq<UserOp>, newAccounts: nat, newSubentries: nat, newClaimants: nat) {

    predicate NeedsSponsorship() { newAccounts > 0 || newSubentries > 0 || newClaimants > 0 }

    function ReserveStroops(baseReserve: int): int {
      (newAccounts * 2 + newSubentries + newClaimants) * baseReserve
    }

    /** The sandwich, the user's operations and the fee payment. */
    function OpCount(): nat { |ops| + (if NeedsSponsorship() then 2 else 0) + 1 }
  }

  const CLAIMABLE_CLAIMANTS: nat := 2

  /** CAP-0023 and the minimum-balance formula: base reserves one operation locks. */
  function UnitsOf(op: UserOp): nat {
    match op
    case Create(_) => 2
    case Trust(_, _) => 1
    case Leave(_, _, _) => CLAIMABLE_CLAIMANTS
    case _ => 0
  }

  function Units(ops: seq<UserOp>): nat {
    if ops == [] then 0 else Units(ops[..|ops| - 1]) + UnitsOf(ops[|ops| - 1])
  }

  datatype Kind = CreateKind | TrustKind | LeaveKind | ClaimKind

  predicate IsKind(op: UserOp, kind: Kind) {
    match kind
    case CreateKind => op.Create?
    case TrustKind => op.Trust?
    case LeaveKind => op.Leave?
    case ClaimKind => op.Claim?
  }

  function Count(ops: seq<UserOp>, kind: Kind): nat {
    if ops == [] then 0
    else Count(ops[..|ops| - 1], kind) + if IsKind(ops[|ops| - 1], kind) then 1 else 0
  }

  function CheckAccount(a: Address): Option<Error> {
    if ToAccountId(a).Some? then None else Some(BadAccount(a))
  }

  function CheckAsset(s: AssetText): Option<Error> {
    if ParseAsset(s).Some? then None else Some(BadAsset(s))
  }

  function CheckAssets(path: seq<AssetText>): Option<Error> {
    if path == [] then None
    else if CheckAsset(path[0]).Some? then CheckAsset(path[0]) else CheckAssets(path[1..])
  }

  function Either(a: Option<Error>, b: Option<Error>): Option<Error> { if a.Some? then a else b }

  /** Why the plan refuses one operation, if it does. Amounts are not looked at here. */
  function CheckOp(op: UserOp): Option<Error> {
    match op
    case Create(destination) => CheckAccount(destination)
    case Trust(asset, _) => if asset.NativeText? then Some(NativeTrustline) else CheckAsset(asset)
    case Pay(destination, asset, _) => Either(CheckAccount(destination), CheckAsset(asset))
    case Swap(destination, sendAsset, _, destAsset, _, path) =>
      Either(CheckAccount(destination), Either(CheckAsset(sendAsset), Either(CheckAsset(destAsset),
        if |path| > 5 then Some(Unsupported("path too long")) else CheckAssets(path))))
    case Claim(id) => if ParseBalanceId(id).Some? then None else Some(BadAmount(id))
    case Leave(destination, asset, _) => Either(CheckAccount(destination), CheckAsset(asset))
  }

  function FirstError(ops: seq<UserOp>): Option<Error> {
    if ops == [] then None else Either(FirstError(ops[..|ops| - 1]), CheckOp(ops[|ops| - 1]))
  }

  /** What a request is classified as. */
  function PlanFor(ops: seq<UserOp>, accountExists: bool): Result<Plan, Error> {
    var mode := if accountExists then Sponsored else Bootstrap;
    if ops == [] then Err(Unsupported("no operations"))
    else if |ops| > 20 then Err(Unsupported("too many operations"))
    else if FirstError(ops).Some? then Err(FirstError(ops).value)
    else if mode.Bootstrap? && Count(ops, LeaveKind) > 0 then
      Err(Unsupported("an account that does not exist yet cannot send; it can only claim"))
    else if mode.Bootstrap? && Count(ops, ClaimKind) == 0 then
      Err(Unsupported("a new account has to be funded in the same transaction"))
    else
      Ok(Plan(mode, ops, Count(ops, CreateKind), Count(ops, TrustKind),
              CLAIMABLE_CLAIMANTS * Count(ops, LeaveKind)))
  }

  /** `Plan::new`: one pass that checks each operation and keeps four counters. */
  method NewPlan(ops: seq<UserOp>, accountExists: bool) returns (r: Result<Plan, Error>)
    ensures r == PlanFor(ops, accountExists)
  {
    hide CheckAssets, DecodeHex, ParseBalanceId, Count, FirstError;
    NothingCounted();
    if |ops| == 0 { return Err(Unsupported("no operations")); }
    if |ops| > 20 { return Err(Unsupported("too many operations")); }
    var newAccounts, newSubentries, newClaimants, claims := 0, 0, 0, 0;
    for i := 0 to |ops|
      invariant FirstError(ops[..i]).None?
      invariant newAccounts == Count(ops[..i], CreateKind)
      invariant newSubentries == Count(ops[..i], TrustKind)
      invariant newClaimants == CLAIMABLE_CLAIMANTS * Count(ops[..i], LeaveKind)
      invariant claims == Count(ops[..i], ClaimKind)
    {
      var op := ops[i];
      OneMoreOp(ops, i);
      match op {
        case Create(destination) =>
          if ToAccountId(destination).None? { ErrorStays(ops, i); return Err(BadAccount(destination)); }
          newAccounts := newAccounts + 1;
        case Trust(asset, _) =>
          if ParseAsset(asset).None? { ErrorStays(ops, i); return Err(BadAsset(asset)); }
          if ParseAsset(asset).value.NamedNative? { ErrorStays(ops, i); return Err(NativeTrustline); }
          newSubentries := newSubentries + 1;
        case Claim(id) =>
          if ParseBalanceId(id).None? { ErrorStays(ops, i); return Err(BadAmount(id)); }
          claims := claims + 1;
        case Leave(_, _, _) =>
          if CheckOp(op).Some? { ErrorStays(ops, i); return Err(CheckOp(op).value); }
          newClaimants := newClaimants + CLAIMABLE_CLAIMANTS;
        case _ =>
          if CheckOp(op).Some? { ErrorStays(ops, i); return Err(CheckOp(op).value); }
      }
    }
    assert ops[..|ops|] == ops;
    var mode := if accountExists then Sponsored else Bootstrap;
    if mode == Bootstrap && newClaimants > 0 {
      return Err(Unsupported("an account that does not exist yet cannot send; it can only claim"));
    }
    if mode == Bootstrap && claims == 0 {
      return Err(Unsupported("a new account has to be funded in the same transaction"));
    }
    return Ok(Plan(mode, ops, newAccounts, newSubentries, newClaimants));
  }

  lemma NothingCounted()
    ensures FirstError([]).None? && forall kind :: Count([], kind) == 0
  {
  }

  lemma OneMoreOp(ops: seq<UserOp>, i: nat)
    requires i < |ops|
    ensures FirstError(ops[..i + 1]) == Either(FirstError(ops[..i]), CheckOp(ops[i]))
    ensures forall kind :: Count(ops[..i + 1], kind) == Count(ops[..i], kind) + if IsKind(ops[i], kind) then 1 else 0
  {
    hide CheckOp, IsKind;
    assert ops[..i + 1][..i] == ops[..i];
  }

  /** The first refused operation decides, whatever comes after it. */
  lemma {:induction false} ErrorStays(ops: seq<UserOp>, i: nat)
    requires i < |ops| && FirstError(ops[..i]).None? && CheckOp(ops[i]).Some?
    ensures FirstError(ops) == CheckOp(ops[i])
  {
    if i + 1 == |ops| {
      assert ops[..|ops| - 1] == ops[..i];
    } else {
      var front := ops[..|ops| - 1];
      assert front[..i] == ops[..i];
      ErrorStays(front, i);
    }
  }

  lemma {:induction false} UnitsAreCounts(ops: seq<UserOp>)
    ensures Units(ops) == 2 * Count(ops, CreateKind) + Count(ops, TrustKind)
                          + CLAIMABLE_CLAIMANTS * Count(ops, LeaveKind)
  {
    if ops != [] { UnitsAreCounts(ops[..|ops| - 1]); }
  }

  /**
   * The three counters price exactly the reserves the operations lock, and a plan needs the
   * sandwich exactly when it locks something.
   */
  lemma PlanLocksItsUnits(ops: seq<UserOp>, accountExists: bool, baseReserve: int)
    requires PlanFor(ops, accountExists).Ok?
    ensures var plan := PlanFor(ops, accountExists).value;
      && plan.ops == ops
      && plan.ReserveStroops(baseReserve) == Units(ops) * baseReserve
      && (plan.NeedsSponsorship() <==> Units(ops) > 0)
      && (baseReserve > 0 ==> (plan.ReserveStroops(baseReserve) > 0 <==> plan.NeedsSponsorship()))
  {
    UnitsAreCounts(ops);
    var units := Units(ops);
    hide Units, Count, FirstError;
    assert PlanFor(ops, accountExists).value.ReserveStroops(baseReserve) == units * baseReserve;
    if units == 0 { assert units * baseReserve == 0; }
    if units > 0 && baseReserve > 0 { assert units * baseReserve >= baseReserve; }
  }

  lemma {:induction false} CountPositive(ops: seq<UserOp>, kind: Kind)
    ensures Count(ops, kind) > 0 <==> exists i :: 0 <= i < |ops| && IsKind(ops[i], kind)
  {
    if ops == [] {
    } else {
      var front := ops[..|ops| - 1];
      CountPositive(front, kind);
      if Count(front, kind) > 0 {
        var i :| 0 <= i < |front| && IsKind(front[i], kind);
        assert IsKind(ops[i], kind);
      }
      if exists i :: 0 <= i < |ops| && IsKind(ops[i], kind) {
        var i :| 0 <= i < |ops| && IsKind(ops[i], kind);
        if i < |front| { assert IsKind(front[i], kind); }
      }
    }
  }

  /** A request is planned exactly when each operation is well formed and a new account only claims. */
  lemma PlannedExactlyWhen(ops: seq<UserOp>, accountExists: bool)
    ensures PlanFor(ops, accountExists).Ok?
       <==> && 1 <= |ops| <= 20
            && (forall i :: 0 <= i < |ops| ==> WellFormed(ops[i]))
            && (!accountExists ==> (forall i :: 0 <= i < |ops| ==> !ops[i].Leave?)
                                   && exists i :: 0 <= i < |ops| && ops[i].Claim?)
  {
    hide WellFormed, CheckOp, Count, FirstError;
    FirstErrorNone(ops);
    forall i | 0 <= i < |ops| ensures CheckOp(ops[i]).None? <==> WellFormed(ops[i]) { ChecksForm(ops[i]); }
    CountPositive(ops, LeaveKind);
    CountPositive(ops, ClaimKind);
    assert forall i :: 0 <= i < |ops| ==> (IsKind(ops[i], LeaveKind) <==> ops[i].Leave?);
    assert forall i :: 0 <= i < |ops| ==> (IsKind(ops[i], ClaimKind) <==> ops[i].Claim?);
  }

  /** Lumens, or a code of one to twelve characters and an issuer that starts with a G. */
  predicate NamesAsset(s: AssetText) {
    s.NativeText? || (s.CodeIssuer? && 1 <= |s.code| <= 12 && StartsWithG(s.issuer))
  }

  /** What can be asked for, as far as texts go: amounts are not looked at here. */
  predicate WellFormed(op: UserOp) {
    match op
    case Create(destination) => destination.Strkey?
    case Pay(destination, asset, _) => destination.Strkey? && NamesAsset(asset)
    case Swap(destination, sendAsset, _, destAsset, _, path) =>
      && destination.Strkey? && NamesAsset(sendAsset) && NamesAsset(destAsset)
      && |path| <= 5 && forall i :: 0 <= i < |path| ==> NamesAsset(path[i])
    case Trust(asset, _) => asset.CodeIssuer? && NamesAsset(asset)
    case Claim(id) => IsBalanceId(id)
    case Leave(destination, asset, _) => destination.Strkey? && NamesAsset(asset)
  }

  lemma ChecksForm(op: UserOp)
    ensures CheckOp(op).None? <==> WellFormed(op)
  {
    hide IsBalanceId, ParseBalanceId;
    if op.Claim? { BalanceIdsExactly(op.balanceId); }
    if op.Swap? { ChecksPath(op.path); }
  }

  lemma {:induction false} ChecksPath(path: seq<AssetText>)
    ensures CheckAssets(path).None? <==> forall i :: 0 <= i < |path| ==> NamesAsset(path[i])
  {
    if path == [] {
    } else {
      ChecksPath(path[1..]);
      assert forall i :: 0 <= i < |path| - 1 ==> path[1..][i] == path[i + 1];
      if CheckAssets(path).None? {
        forall i | 0 <= i < |path| ensures NamesAsset(path[i]) {
          if i > 0 { assert path[i] == path[1..][i - 1]; }
        }
      }
    }
  }

  /** Why one operation is refused: the first of its texts that cannot be read. */
  predicate RefusedFor(op: UserOp, e: Error) {
    match op
    case Create(d) => e == BadAccount(d)
    case Pay(d, asset, _) => e == if !d.Strkey? then BadAccount(d) else BadAsset(asset)
    case Leave(d, asset, _) => e == if !d.Strkey? then BadAccount(d) else BadAsset(asset)
    case Trust(asset, _) => e == if asset.NativeText? then NativeTrustline else BadAsset(asset)
    case Claim(id) => e == BadAmount(id)
    case Swap(d, sendAsset, _, destAsset, _, path) =>
      if !d.Strkey? then e == BadAccount(d)
      else if !NamesAsset(sendAsset) then e == BadAsset(sendAsset)
      else if !NamesAsset(destAsset) then e == BadAsset(destAsset)
      else if |path| > 5 then e.Unsupported?
      else exists i :: 0 <= i < |path| && !NamesAsset(path[i]) && (forall j :: 0 <= j < i ==> NamesAsset(path[j]))
                       && e == BadAsset(path[i])
  }

  lemma {:induction false} FirstHopError(path: seq<AssetText>)
    requires CheckAssets(path).Some?
    ensures exists i :: 0 <= i < |path| && !NamesAsset(path[i]) && (forall j :: 0 <= j < i ==> NamesAsset(path[j]))
                        && CheckAssets(path) == Some(BadAsset(path[i]))
  {
    if CheckAsset(path[0]).Some? {
      assert !NamesAsset(path[0]);
    } else {
      FirstHopError(path[1..]);
      var i :| 0 <= i < |path[1..]| && !NamesAsset(path[1..][i])
               && (forall j :: 0 <= j < i ==> NamesAsset(path[1..][j]))
               && CheckAssets(path[1..]) == Some(BadAsset(path[1..][i]));
      assert path[i + 1] == path[1..][i];
      forall j | 0 <= j < i + 1 ensures NamesAsset(path[j]) { if j > 0 { assert path[j] == path[1..][j - 1]; } }
    }
  }

  lemma RefusesFor(op: UserOp)
    ensures CheckOp(op).Some? ==> RefusedFor(op, CheckOp(op).value)
  {
    hide ParseBalanceId;
    if op.Swap? && CheckAssets(op.path).Some? { FirstHopError(op.path); }
  }

  /** The first ill-formed operation is the reason; then what a new account may not ask. */
  lemma RefusalExactly(ops: seq<UserOp>, accountExists: bool, i: nat)
    requires 1 <= |ops| <= 20 && i <= |ops| && forall j :: 0 <= j < i ==> WellFormed(ops[j])
    ensures i < |ops| && !WellFormed(ops[i]) ==>
      PlanFor(ops, accountExists).Err? && RefusedFor(ops[i], PlanFor(ops, accountExists).error)
    ensures i == |ops| && PlanFor(ops, accountExists).Err? ==> PlanFor(ops, accountExists).error.Unsupported?
  {
    hide WellFormed, CheckOp, Count;
    forall j | 0 <= j < |ops| ensures CheckOp(ops[j]).None? <==> WellFormed(ops[j]) { ChecksForm(ops[j]); }
    if i < |ops| && !WellFormed(ops[i]) {
      RefusesFor(ops[i]);
      FirstErrorNone(ops[..i]);
      ErrorStays(ops, i);
    }
    FirstErrorNone(ops);
  }

  lemma {:induction false} FirstErrorNone(ops: seq<UserOp>)
    ensures FirstError(ops).None? <==> forall i :: 0 <= i < |ops| ==> CheckOp(ops[i]).None?
  {
    if ops == [] {
    } else {
      var front := ops[..|ops| - 1];
      FirstErrorNone(front);
      assert forall i :: 0 <= i < |front| ==> front[i] == ops[i];
      assert forall i :: 0 <= i < |ops| ==> i == |ops| - 1 || ops[i] == front[i];
    }
  }
}
