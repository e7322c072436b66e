// The ledger a built transaction runs on: CAP-0033 sponsorship, CAP-0023 claimable balances,
// CAP-0015 fee bumps, and a market that answers path payments however it likes.
module Ledger {
  import opened Prelude
  import opened Stellar
  import Predicates

  datatype AccountEntry = AccountEntry(balance: int, sequence: int, subentries: int, sponsoring: int, sponsored: int)

  datatype LineEntry = LineEntry(balance: int, limit: int, sponsor: Option<AccountId>)

  datatype ClaimableEntry = ClaimableEntry(
    asset: Asset, amount: int, claimants: multiset<Claimant>, created: int, sponsor: AccountId)

  /** `sandwiches` maps each account whose future reserves are being sponsored to its sponsor. */
  datatype State = State(
    accounts: map<AccountId, AccountEntry>, lines: map<(AccountId, Asset), LineEntry>,
    claimables: map<BalanceId, ClaimableEntry>, sandwiches: map<AccountId, AccountId>)

  /** What the network fixes for one transaction; the market may answer each operation differently. */
  datatype Env = Env(
    network: string, baseReserve: nat, closeTime: int, startingSequence: int,
    cost: (nat, Asset, seq<Asset>, Asset, int) -> Option<nat>,
    proceeds: (nat, Asset, seq<Asset>, Asset, int) -> Option<nat>,
    freshId: nat -> BalanceId)

  datatype Failure =
    | NoAccount(who: AccountId)
    | Underfunded(who: AccountId)
    | LowReserve(who: AccountId)
    | NoTrust(who: AccountId, asset: Asset)
    | LineFull(who: AccountId, asset: Asset)
    | Malformed
    | NoRoute
    | OverSendMax
    | UnderDestMin
    | InvalidLimit
    | DoesNotExist
    | CannotClaim
    | AlreadyExists
    | AlreadySponsored
    | NotSponsored
    | NotModelled

  type Outcome = Result<State, Failure>

  function MinBalance(e: AccountEntry, base: nat): int { (2 + e.subentries + e.sponsoring - e.sponsored) * base }

  function SetAccount(l: State, who: AccountId, e: AccountEntry): State { l.(accounts := l.accounts[who := e]) }

  function BalanceOf(l: State, who: AccountId, asset: Asset): int {
    if asset.Native? then (if who in l.accounts then l.accounts[who].balance else 0)
    else if (who, asset) in l.lines then l.lines[(who, asset)].balance else 0
  }

  predicate IssuedBy(asset: Asset, who: AccountId) { asset.Credit? && asset.issuer == who }

  /** Take `n` of an asset from an account. An issuer has no balance of its own asset. */
  function Debit(l: State, who: AccountId, asset: Asset, n: nat, base: nat): Outcome {
    if who !in l.accounts then Err(NoAccount(who))
    else if asset.Native? then
      var e := l.accounts[who];
      if e.balance - n < MinBalance(e, base) then Err(Underfunded(who))
      else Ok(SetAccount(l, who, e.(balance := e.balance - n)))
    else if IssuedBy(asset, who) then Ok(l)
    else if (who, asset) !in l.lines then Err(NoTrust(who, asset))
    else
      var line := l.lines[(who, asset)];
      if line.balance < n then Err(Underfunded(who))
      else Ok(l.(lines := l.lines[(who, asset) := line.(balance := line.balance - n)]))
  }

  function Deposit(l: State, who: AccountId, asset: Asset, n: nat): Outcome {
    if who !in l.accounts then Err(NoAccount(who))
    else if asset.Native? then
      var e := l.accounts[who];
      if e.balance + n > I64_MAX then Err(LineFull(who, asset))
      else Ok(SetAccount(l, who, e.(balance := e.balance + n)))
    else if IssuedBy(asset, who) then Ok(l)
    else if (who, asset) !in l.lines then Err(NoTrust(who, asset))
    else
      var line := l.lines[(who, asset)];
      if line.balance + n > line.limit then Err(LineFull(who, asset))
      else Ok(l.(lines := l.lines[(who, asset) := line.(balance := line.balance + n)]))
  }

  /** Sponsoring `units` more reserves raises the sponsor's own minimum balance. */
  function Sponsor(l: State, who: AccountId, units: nat, base: nat): Outcome {
    if who !in l.accounts then Err(NoAccount(who))
    else
      var e := l.accounts[who].(sponsoring := l.accounts[who].sponsoring + units);
      if e.balance < MinBalance(e, base) then Err(LowReserve(who)) else Ok(SetAccount(l, who, e))
  }

  function Unsponsor(l: State, who: AccountId, units: nat): State {
    if who !in l.accounts then l
    else SetAccount(l, who, l.accounts[who].(sponsoring := l.accounts[who].sponsoring - units))
  }

  /** One more subentry for its owner, its reserve carried by the open sandwich if there is one. */
  function AddSubentry(l: State, owner: AccountId, base: nat): Outcome
    requires owner in l.accounts
  {
    var e := l.accounts[owner].(subentries := l.accounts[owner].subentries + 1);
    if owner in l.sandwiches then
      Sponsor(SetAccount(l, owner, e.(sponsored := e.sponsored + 1)), l.sandwiches[owner], 1, base)
    else if e.balance < MinBalance(e, base) then Err(LowReserve(owner))
    else Ok(SetAccount(l, owner, e))
  }

  function RemoveSubentry(l: State, owner: AccountId, sponsor: Option<AccountId>): State
    requires owner in l.accounts
  {
    var e := l.accounts[owner].(subentries := l.accounts[owner].subentries - 1);
    match sponsor
    case None => SetAccount(l, owner, e)
    case Some(s) => Unsponsor(SetAccount(l, owner, e.(sponsored := e.sponsored - 1)), s, 1)
  }

  /** A path payment between one asset and itself, with no hops, converts nothing. */
  function Cost(env: Env, k: nat, sendAsset: Asset, path: seq<Asset>, destAsset: Asset, n: nat): Option<nat> {
    if sendAsset == destAsset && path == [] then Some(n) else env.cost(k, sendAsset, path, destAsset, n)
  }

  function Proceeds(env: Env, k: nat, sendAsset: Asset, path: seq<Asset>, destAsset: Asset, n: nat): Option<nat> {
    if sendAsset == destAsset && path == [] then Some(n) else env.proceeds(k, sendAsset, path, destAsset, n)
  }

  function DoBegin(l: State, src: AccountId, id: AccountId): Outcome {
    if src == id then Err(Malformed)
    else if id in l.sandwiches || src in l.sandwiches || id in l.sandwiches.Values then Err(AlreadySponsored)
    else Ok(l.(sandwiches := l.sandwiches[id := src]))
  }

  function DoEnd(l: State, src: AccountId): Outcome {
    if src !in l.sandwiches then Err(NotSponsored) else Ok(l.(sandwiches := l.sandwiches - {src}))
  }

  /** A new account locks two base reserves: its own money, or its sponsor's. */
  function DoCreate(l: State, src: AccountId, id: AccountId, funding: int, env: Env): Outcome {
    if funding < 0 then Err(Malformed)
    else if id in l.accounts then Err(AlreadyExists)
    else
      var l1 :- Debit(l, src, Native, funding, env.baseReserve);
      var e := AccountEntry(funding, env.startingSequence, 0, 0, 0);
      if id in l.sandwiches then
        Sponsor(SetAccount(l1, id, e.(sponsored := 2)), l.sandwiches[id], 2, env.baseReserve)
      else if funding < 2 * env.baseReserve then Err(LowReserve(id))
      else Ok(SetAccount(l1, id, e))
  }

  function DoPay(l: State, src: AccountId, to: AccountId, asset: Asset, n: int, env: Env): Outcome {
    if n <= 0 then Err(Malformed)
    else
      var l1 :- Deposit(l, to, asset, n);
      Debit(l1, src, asset, n, env.baseReserve)
  }

  function DoStrictSend(l: State, src: AccountId, body: OpBody, env: Env, k: nat): Outcome
    requires body.PathStrictSend?
  {
    if body.sendAmount <= 0 || body.destMin <= 0 then Err(Malformed)
    else
      var l1 :- Debit(l, src, body.sendAsset, body.sendAmount, env.baseReserve);
      var got :- ToResult(Proceeds(env, k, body.sendAsset, body.path, body.destAsset, body.sendAmount), NoRoute);
      if got < body.destMin then Err(UnderDestMin)
      else Deposit(l1, body.destination, body.destAsset, got)
  }

  function DoStrictReceive(l: State, src: AccountId, body: OpBody, env: Env, k: nat): Outcome
    requires body.PathStrictReceive?
  {
    if body.sendMax <= 0 || body.destAmount <= 0 then Err(Malformed)
    else
      var l1 :- Deposit(l, body.destination, body.destAsset, body.destAmount);
      var cost :- ToResult(Cost(env, k, body.sendAsset, body.path, body.destAsset, body.destAmount), NoRoute);
      if cost > body.sendMax then Err(OverSendMax)
      else Debit(l1, src, body.sendAsset, cost, env.baseReserve)
  }

  ghost predicate MayClaim(entry: ClaimableEntry, who: AccountId, now: int) {
    exists c :: c in entry.claimants && c.destination == who && Predicates.Holds(c.condition, now, entry.created)
  }

  ghost function DoClaim(l: State, src: AccountId, id: BalanceId, env: Env): Outcome {
    if id !in l.claimables then Err(DoesNotExist)
    else
      var entry := l.claimables[id];
      if !MayClaim(entry, src, env.closeTime) || entry.amount < 0 then Err(CannotClaim)
      else
        var l1 :- Deposit(l, src, entry.asset, entry.amount);
        Ok(Unsponsor(l1.(claimables := l1.claimables - {id}), entry.sponsor, |entry.claimants|))
  }

  function DoTrust(l: State, src: AccountId, asset: Asset, limit: int, env: Env): Outcome
    requires src in l.accounts
  {
    var key := (src, asset);
    if asset.Native? || limit < 0 || IssuedBy(asset, src) then Err(Malformed)
    else if key in l.lines then
      var line := l.lines[key];
      if limit < line.balance then Err(InvalidLimit)
      else if limit == 0 then Ok(RemoveSubentry(l.(lines := l.lines - {key}), src, line.sponsor))
      else Ok(l.(lines := l.lines[key := line.(limit := limit)]))
    else if limit == 0 then Err(InvalidLimit)
    else
      var sponsor := if src in l.sandwiches then Some(l.sandwiches[src]) else None;
      AddSubentry(l.(lines := l.lines[key := LineEntry(0, limit, sponsor)]), src, env.baseReserve)
  }

  function Destinations(claimants: seq<Claimant>): set<AccountId> { set c | c in claimants :: c.destination }

  /** One base reserve per claimant, carried by the open sandwich or by the source itself. */
  function DoLeave(l: State, src: AccountId, asset: Asset, n: int, claimants: seq<Claimant>, env: Env, k: nat)
    : Outcome
  {
    if n <= 0 || claimants == [] || |Destinations(claimants)| != |claimants| then Err(Malformed)
    else if env.freshId(k) in l.claimables then Err(AlreadyExists)
    else
      var l1 :- Debit(l, src, asset, n, env.baseReserve);
      var sponsor := if src in l.sandwiches then l.sandwiches[src] else src;
      var entry := ClaimableEntry(asset, n, multiset(claimants), env.closeTime, sponsor);
      Sponsor(l1.(claimables := l1.claimables[env.freshId(k) := entry]), sponsor, |claimants|, env.baseReserve)
  }

  /** One operation, sourced by `src`, at position `k` of its transaction. */
  ghost function Step(l: State, body: OpBody, src: AccountId, env: Env, k: nat): Outcome {
    if src !in l.accounts then Err(NoAccount(src))
    else
      match body
      case BeginSponsoring(id) => DoBegin(l, src, id)
      case EndSponsoring => DoEnd(l, src)
      case CreateAccount(id, funding) => DoCreate(l, src, id, funding, env)
      case Payment(to, asset, n) => DoPay(l, src, to, asset, n, env)
      case PathStrictSend(_, _, _, _, _, _) => DoStrictSend(l, src, body, env, k)
      case PathStrictReceive(_, _, _, _, _, _) => DoStrictReceive(l, src, body, env, k)
      case ClaimClaimable(id) => DoClaim(l, src, id, env)
      case ChangeTrust(AssetLine(asset), limit) => DoTrust(l, src, asset, limit, env)
      case ChangeTrust(PoolShare, _) => Err(NotModelled)
      case CreateClaimable(asset, n, claimants) => DoLeave(l, src, asset, n, claimants, env, k)
      case OtherOperation(_) => Err(NotModelled)
  }

  /** Operations in order; the first failure is the result. */
  ghost function Exec(l: State, ops: seq<Operation>, txSource: AccountId, env: Env): Outcome {
    if ops == [] then Ok(l)
    else
      var l1 :- Exec(l, ops[..|ops| - 1], txSource, env);
      var op := ops[|ops| - 1];
      Step(l1, op.body, EffectiveSource(op, txSource), env, |ops| - 1)
  }

  /** Who pays the fee and the most it can be, next to the transaction it is for and what it came in. */
  datatype Submission = Submission(tx: Transaction, feePayer: AccountId, feeBid: int, envelope: Envelope)

  function SubmissionOf(e: Envelope): Submission {
    match e
    case Plain(inner) => Submission(inner.tx, inner.tx.source, inner.tx.fee, e)
    case FeeBump(feeSource, fee, inner, _) => Submission(inner.tx, feeSource, fee, e)
  }

  datatype Applied = Rejected | Failed(after: State) | Succeeded(after: State)

  /** Includable, or refused without a trace: signatures, sequence number, time and the payer's funds decide. */
  predicate Includable(l: State, s: Submission, env: Env) {
    && Authorised(s.envelope, env.network)
    && s.tx.source in l.accounts && s.feePayer in l.accounts && s.tx.ops != []
    && l.accounts[s.tx.source].sequence + 1 == s.tx.sequence
    && l.accounts[s.feePayer].balance - MinBalance(l.accounts[s.feePayer], env.baseReserve) >= s.feeBid
    && InTime(s.tx, env.closeTime)
  }

  /** No upper bound is written as zero. */
  predicate InTime(tx: Transaction, closeTime: int) {
    tx.minTime <= closeTime && (tx.maxTime == 0 || closeTime <= tx.maxTime)
  }

  /** Fees are taken and sequence numbers consumed before any operation runs, and are kept on failure. */
  function Charge(l: State, s: Submission, fee: nat): State
    requires s.tx.source in l.accounts && s.feePayer in l.accounts
  {
    var l1 := SetAccount(l, s.feePayer, l.accounts[s.feePayer].(balance := l.accounts[s.feePayer].balance - fee));
    SetAccount(l1, s.tx.source, l1.accounts[s.tx.source].(sequence := s.tx.sequence))
  }

  /** A transaction is all or nothing, and every sandwich it opens has to be closed. */
  ghost function Apply(l: State, s: Submission, fee: nat, env: Env): Applied {
    if !Includable(l, s, env) || fee > s.feeBid then Rejected
    else
      var paid := Charge(l, s, fee);
      match Exec(paid, s.tx.ops, s.tx.source, env)
      case Ok(done) => if done.sandwiches == map[] then Succeeded(done) else Failed(paid)
      case Err(_) => Failed(paid)
  }
}
