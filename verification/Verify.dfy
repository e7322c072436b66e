// The SDK's checker: written independently of the builder, and trusting nothing the service says.
module Verify {
  import opened Prelude
  import opened Stellar
  import opened Names
  import opened Plans
  import opened Decimal
  import opened Build
  import Claimants

  /** `maxSendStroops: number | string`. */
  datatype Ceiling = NumberCeiling(n: int) | TextCeiling(text: string)

  /** The caller's own inputs. */
  datatype Request = Request(source: Address, feeToken: AssetText, maxSendStroops: Ceiling, ops: seq<UserOp>)

  datatype Expectations = Expectations(network: Option<string>, sponsor: Option<Address>)

  const MAX_SAFE_INTEGER: int := 0x1f_ffff_ffff_ffff

  predicate SafeInteger(n: int) { -MAX_SAFE_INTEGER <= n <= MAX_SAFE_INTEGER }

  function StroopsOf(c: Ceiling): Option<nat> {
    match c
    case NumberCeiling(n) => if SafeInteger(n) && n >= 0 then Some(n) else None
    case TextCeiling(text) =>
      if Trim(text) != "" && AllDigits(Trim(text)) then Some(DigitsValue(Trim(text))) else None
  }

  /** Decimal digits for `n`, blanks around them allowed. */
  ghost predicate Writes(text: string, left: string, digits: string, right: string, n: nat) {
    && text == left + digits + right && Blank(left) && Blank(right)
    && digits != "" && AllDigits(digits) && DigitsValue(digits) == n
  }

  /** A whole number a double holds exactly, or its digits. */
  ghost predicate CeilingSays(c: Ceiling, n: nat) {
    match c
    case NumberCeiling(m) => m == n <= 9_007_199_254_740_991
    case TextCeiling(text) => exists left, digits, right :: Writes(text, left, digits, right, n)
  }

  /** The ceiling is read as what it says, and refused if it says nothing. */
  lemma CeilingReads(c: Ceiling, n: nat)
    ensures StroopsOf(c) == Some(n) <==> CeilingSays(c, n)
  {
    hide Trim, DigitsValue, AllDigits, Blank;
    match c
    case NumberCeiling(_) =>
    case TextCeiling(text) =>
      if StroopsOf(c) == Some(n) {
        var left, right := TrimTakesBlanks(text);
        assert Writes(text, left, Trim(text), right, n);
      }
      forall left, digits, right | Writes(text, left, digits, right, n) ensures StroopsOf(c) == Some(n) {
        TrimPadded(left, digits, right);
      }
  }

  /** In particular it is read back as written. */
  lemma CeilingRoundTrip(n: nat, left: string, right: string)
    requires Blank(left) && Blank(right)
    ensures StroopsOf(TextCeiling(left + NatText(n) + right)) == Some(n)
    ensures n <= 9_007_199_254_740_991 ==> StroopsOf(NumberCeiling(n)) == Some(n)
  {
    hide DigitsValue, Blank, NatText;
    NatTextValue(n);
    assert Writes(left + NatText(n) + right, left, NatText(n), right, n);
    CeilingReads(TextCeiling(left + NatText(n) + right), n);
    CeilingReads(NumberCeiling(n), n);
  }

  // ---------- Comparisons; a throw inside one refuses to sign, like an inequality ----------

  predicate SameAsset(got: Asset, want: AssetText) { AssetOf(want) == Some(got) }

  predicate SameAssetText(a: AssetText, b: AssetText) {
    AssetOf(a).Some? && AssetOf(a) == AssetOf(b)
  }

  predicate SameRoute(got: seq<Asset>, want: seq<AssetText>) {
    |got| == |want| && forall i :: 0 <= i < |got| ==> SameAsset(got[i], want[i])
  }

  predicate SameRouteText(got: seq<AssetText>, want: seq<AssetText>) {
    |got| == |want| && forall i :: 0 <= i < |got| ==> SameAssetText(got[i], want[i])
  }

  /** A chain amount as the SDK shows it, against a text. */
  predicate ShowsAmount(got: int, want: string) { SameAmount(FormatStroops(got), want) }

  predicate SameLimit(got: Option<string>, want: Option<string>) {
    if got.None? || want.None? then got == want else SameAmount(got.value, want.value)
  }

  predicate SameOp(got: UserOp, want: UserOp) {
    match want
    case Create(destination) => got.Create? && got.destination == destination
    case Pay(destination, asset, amount) =>
      got.Pay? && got.destination == destination && SameAssetText(got.asset, asset) && SameAmount(got.amount, amount)
    case Trust(asset, limit) => got.Trust? && SameAssetText(got.asset, asset) && SameLimit(got.limit, limit)
    case Claim(id) => got.Claim? && ToLower(got.balanceId) == ToLower(id)
    case Leave(destination, asset, amount) =>
      got.Leave? && got.destination == destination && SameAssetText(got.asset, asset) && SameAmount(got.amount, amount)
    case Swap(destination, sendAsset, sendAmount, destAsset, destMin, path) =>
      && got.Swap? && got.destination == destination
      && SameAssetText(got.sendAsset, sendAsset) && SameAmount(got.sendAmount, sendAmount)
      && SameAssetText(got.destAsset, destAsset) && SameAmount(got.destMin, destMin)
      && SameRouteText(got.path, path)
  }

  /** The quote answers the request that was made. */
  predicate QuoteAnswers(p: Quote, r: Request, e: Expectations) {
    && (e.network.Some? ==> p.network == e.network.value)
    && (e.sponsor.Some? ==> p.sponsor == e.sponsor.value)
    && p.source == r.source
    && SameAssetText(p.feeToken, r.feeToken)
    && StroopsOf(r.maxSendStroops).Some?
    && StroopsOf(NumberCeiling(p.sendMaxStroops)).Some?
    && p.sendMaxStroops <= StroopsOf(r.maxSendStroops).value
    && |p.ops| == |r.ops|
    && forall i :: 0 <= i < |p.ops| ==> SameOp(p.ops[i], r.ops[i])
  }

  /**
   * What an answer has to be: for the network and the sponsor the caller knows, from the caller's account,
   * in the caller's token, inside the number the caller's ceiling says, and for the caller's operations,
   * one for one.
   */
  lemma AnswersExactly(p: Quote, r: Request, e: Expectations)
    ensures QuoteAnswers(p, r, e) <==>
      && (e.network == None || e.network == Some(p.network)) && (e.sponsor == None || e.sponsor == Some(p.sponsor))
      && p.source == r.source && AssetOf(p.feeToken).Some? && AssetOf(p.feeToken) == AssetOf(r.feeToken)
      && (exists n: nat :: CeilingSays(r.maxSendStroops, n) && 0 <= p.sendMaxStroops <= n)
      && p.sendMaxStroops <= 9_007_199_254_740_991
      && |p.ops| == |r.ops| && forall i :: 0 <= i < |r.ops| ==> SameOp(p.ops[i], r.ops[i])
  {
    hide SameOp, AssetOf, CeilingSays;
    if StroopsOf(r.maxSendStroops).Some? { CeilingReads(r.maxSendStroops, StroopsOf(r.maxSendStroops).value); }
    forall n: nat | CeilingSays(r.maxSendStroops, n) ensures StroopsOf(r.maxSendStroops) == Some(n) {
      CeilingReads(r.maxSendStroops, n);
    }
  }

  method VerifyQuote(p: Quote, r: Request, e: Expectations) returns (ok: bool)
    ensures ok <==> QuoteAnswers(p, r, e)
  {
    hide SameOp, SameAssetText, Trim, DigitsValue, AllDigits;
    if e.network.Some? && p.network != e.network.value { return false; }
    if e.sponsor.Some? && p.sponsor != e.sponsor.value { return false; }
    if p.source != r.source { return false; }
    if !SameAssetText(p.feeToken, r.feeToken) { return false; }
    var cap := StroopsOf(r.maxSendStroops);
    if cap.None? { return false; }
    var quoted := StroopsOf(NumberCeiling(p.sendMaxStroops));
    if quoted.None? { return false; }
    if quoted.value > cap.value { return false; }
    if |p.ops| != |r.ops| { return false; }
    for i := 0 to |p.ops|
      invariant forall j :: 0 <= j < i ==> SameOp(p.ops[j], r.ops[j])
    {
      if !SameOp(p.ops[i], r.ops[i]) { return false; }
    }
    return true;
  }

  // ---------- The built transaction ----------

  function FindClaimant(claimants: seq<Claimant>, who: Address): Option<Claimant> {
    if claimants == [] then None
    else if Strkey(claimants[0].destination) == who then Some(claimants[0])
    else FindClaimant(claimants[1..], who)
  }

  predicate PairNames(claimants: seq<Claimant>, source: Address, destination: Address) {
    && |claimants| == 2
    && FindClaimant(claimants, destination).Some? && FindClaimant(claimants, source).Some?
    && FindClaimant(claimants, destination).value.condition == Unconditional
    && FindClaimant(claimants, source).value.condition == Claimants.RECLAIM_CONDITION
  }

  /** `verifyOp`. */
  predicate VerifyOp(got: OpBody, want: UserOp, source: Address) {
    match want
    case Create(destination) =>
      got.CreateAccount? && Strkey(got.newAccount) == destination && ShowsAmount(got.startingBalance, "0")
    case Pay(destination, asset, amount) =>
      got.Payment? && Strkey(got.destination) == destination && SameAsset(got.asset, asset)
      && ShowsAmount(got.amount, amount)
    case Claim(id) => got.ClaimClaimable? && RenderBalanceId(got.balanceId) == id
    case Trust(asset, limit) =>
      got.ChangeTrust? && got.line.AssetLine? && SameAsset(got.line.asset, asset)
      && (limit.Some? ==> ShowsAmount(got.limit, limit.value))
    case Swap(destination, sendAsset, sendAmount, destAsset, destMin, path) =>
      && got.PathStrictSend? && Strkey(got.destination) == destination
      && SameAsset(got.sendAsset, sendAsset) && ShowsAmount(got.sendAmount, sendAmount)
      && SameAsset(got.destAsset, destAsset) && ShowsAmount(got.destMin, destMin)
      && SameRoute(got.path, path)
    case Leave(destination, asset, amount) =>
      got.CreateClaimable? && SameAsset(got.asset, asset) && ShowsAmount(got.amount, amount)
      && PairNames(got.claimants, source, destination)
  }

  predicate OpensSandwich(op: Operation, txSource: AccountId, p: Quote) {
    && op.body.BeginSponsoring?
    && Strkey(op.body.sponsoredId) == p.source
    && Strkey(EffectiveSource(op, txSource)) == p.sponsor
  }

  predicate ClosesSandwich(op: Operation, p: Quote) {
    op.body.EndSponsoring? && op.source.Some? && Strkey(op.source.value) == p.source
  }

  predicate SourceIs(got: Option<AccountId>, want: Option<Address>) {
    match got
    case None => want.None?
    case Some(id) => want == Some(Strkey(id))
  }

  predicate PaysFee(op: Operation, p: Quote) {
    && op.body.PathStrictReceive?
    && SourceIs(op.source, if p.mode.Bootstrap? then Some(p.source) else None)
    && Strkey(op.body.destination) == p.sponsor
    && op.body.destAsset.Native?
    && ShowsAmount(op.body.destAmount, FormatStroops(p.chargeStroops))
    && ShowsAmount(op.body.sendMax, FormatStroops(p.sendMaxStroops))
    && SameAsset(op.body.sendAsset, p.feeToken)
    && SameRoute(op.body.path, p.path)
  }

  predicate UserOpMatches(op: Operation, want: UserOp, source: Address) {
    (op.source.None? || Strkey(op.source.value) == source) && VerifyOp(op.body, want, source)
  }

  /** Which transactions pass, by position: no order of checking, no consumption from the ends. */
  ghost predicate Matches(tx: Transaction, p: Quote, requested: seq<UserOp>) {
    && |tx.ops| == |requested| + 2 * p.First() + 1
    && (p.Sandwiched() ==> OpensSandwich(tx.ops[0], tx.source, p) && ClosesSandwich(tx.ops[|requested| + 1], p))
    && PaysFee(tx.ops[|tx.ops| - 1], p)
    && BodyMatches(tx.ops, p.First(), requested, p.source)
  }

  ghost predicate BodyMatches(ops: seq<Operation>, first: nat, requested: seq<UserOp>, source: Address)
    requires first + |requested| <= |ops|
  {
    forall i :: 0 <= i < |requested| ==> UserOpMatches(ops[first + i], requested[i], source)
  }

  /** What is left of a list after shifts and pops. */
  ghost predicate IsWindow<T>(ops: seq<T>, all: seq<T>, lo: int, hi: int) {
    0 <= lo <= hi <= |all| && ops == all[lo..hi]
  }

  lemma WholeWindow<T>(all: seq<T>)
    ensures IsWindow(all, all, 0, |all|)
  {
  }

  lemma WindowSize<T>(ops: seq<T>, all: seq<T>, lo: int, hi: int)
    requires IsWindow(ops, all, lo, hi)
    ensures |ops| == hi - lo
  {
  }

  lemma Shift<T>(ops: seq<T>, all: seq<T>, lo: int, hi: int)
    requires IsWindow(ops, all, lo, hi) && ops != []
    ensures 0 <= lo < |all| && ops[0] == all[lo] && IsWindow(ops[1..], all, lo + 1, hi)
  {
  }

  lemma Pop<T>(ops: seq<T>, all: seq<T>, lo: int, hi: int)
    requires IsWindow(ops, all, lo, hi) && ops != []
    ensures 0 < hi <= |all| && ops[|ops| - 1] == all[hi - 1] && IsWindow(ops[..|ops| - 1], all, lo, hi - 1)
  {
  }

  lemma WindowMatches(window: seq<Operation>, ops: seq<Operation>, first: nat, requested: seq<UserOp>, source: Address)
    requires IsWindow(window, ops, first, first + |requested|)
    ensures BodyMatches(window, 0, requested, source) <==> BodyMatches(ops, first, requested, source)
  {
    assert forall i :: 0 <= i < |requested| ==> window[i] == ops[first + i];
  }

  /** The same, counted from whichever end the checker reads. */
  lemma FromBothEnds(tx: Transaction, p: Quote, requested: seq<UserOp>)
    ensures Matches(tx, p, requested) <==>
      && |tx.ops| == |requested| + 2 * p.First() + 1
      && (p.Sandwiched() ==> OpensSandwich(tx.ops[0], tx.source, p) && ClosesSandwich(tx.ops[|tx.ops| - 2], p))
      && PaysFee(tx.ops[|tx.ops| - 1], p)
      && BodyMatches(tx.ops, p.First(), requested, p.source)
  {
    hide OpensSandwich, ClosesSandwich, PaysFee, BodyMatches;
  }

  /** `verifyClassic`: shift the begin, pop the fee, pop the end, then walk what is left. */
  method VerifyClassic(tx: Transaction, p: Quote, requested: seq<UserOp>) returns (ok: bool)
    ensures ok <==> Matches(tx, p, requested)
  {
    hide IsWindow, Matches, OpensSandwich, ClosesSandwich, PaysFee, BodyMatches;
    FromBothEnds(tx, p, requested);
    var ops := tx.ops;
    var sponsored := p.reserveStroops > 0;
    WholeWindow(tx.ops);
    if sponsored {
      if |ops| == 0 { return false; }
      Shift(ops, tx.ops, 0, |tx.ops|);
      var first := ops[0];
      ops := ops[1..];
      if !OpensSandwich(first, tx.source, p) { return false; }
    }
    ghost var lo, hi := p.First(), |tx.ops|;
    WindowSize(ops, tx.ops, lo, hi);
    if |ops| == 0 { return false; }
    Pop(ops, tx.ops, lo, hi);
    var feeOp := ops[|ops| - 1];
    ops := ops[..|ops| - 1];
    if !PaysFee(feeOp, p) { return false; }
    WindowSize(ops, tx.ops, lo, hi - 1);
    if sponsored {
      if |ops| == 0 { return false; }
      Pop(ops, tx.ops, lo, hi - 1);
      var last := ops[|ops| - 1];
      ops := ops[..|ops| - 1];
      if !ClosesSandwich(last, p) { return false; }
    }
    WindowSize(ops, tx.ops, lo, hi - 1 - lo);
    if |ops| != |requested| { return false; }
    WindowMatches(ops, tx.ops, lo, requested, p.source);
    ok := VerifyUserOps(ops, requested, p.source);
  }

  method VerifyUserOps(ops: seq<Operation>, requested: seq<UserOp>, source: Address) returns (ok: bool)
    requires |ops| == |requested|
    ensures ok <==> BodyMatches(ops, 0, requested, source)
  {
    hide UserOpMatches;
    for i := 0 to |ops|
      invariant forall j :: 0 <= j < i ==> UserOpMatches(ops[j], requested[j], source)
    {
      if !UserOpMatches(ops[i], requested[i], source) { return false; }
    }
    return true;
  }

  /** The assets of an operation, every one of which the SDK has to decode. */
  function AssetsOf(body: OpBody): seq<Asset> {
    match body
    case Payment(_, asset, _) => [asset]
    case PathStrictSend(sendAsset, _, _, destAsset, _, path) => [sendAsset, destAsset] + path
    case PathStrictReceive(sendAsset, _, _, destAsset, _, path) => [sendAsset, destAsset] + path
    case ChangeTrust(AssetLine(asset), _) => [asset]
    case CreateClaimable(asset, _, _) => [asset]
    case _ => []
  }

  predicate SdkReads(tx: Transaction) {
    forall i :: 0 <= i < |tx.ops| ==> SdkReadsOp(tx.ops[i].body)
  }

  predicate SdkReadsOp(body: OpBody) {
    forall k :: 0 <= k < |AssetsOf(body)| ==> SdkAsset(AssetsOf(body)[k])
  }

  /** An operation decodes exactly when every asset it sends, pays out, trusts or goes through is one the SDK takes. */
  lemma DecodesEvery(body: OpBody)
    ensures SdkReadsOp(body) <==>
      match body
      case Payment(_, asset, _) => SdkAsset(asset)
      case PathStrictSend(sent, _, _, received, _, path) => SdkAsset(sent) && SdkAsset(received) && SdkTakes(path)
      case PathStrictReceive(sent, _, _, received, _, path) => SdkAsset(sent) && SdkAsset(received) && SdkTakes(path)
      case ChangeTrust(AssetLine(asset), _) => SdkAsset(asset)
      case CreateClaimable(asset, _, _) => SdkAsset(asset)
      case _ => true
  {
    hide SdkAsset;
    var assets := AssetsOf(body);
    if body.PathStrictSend? || body.PathStrictReceive? {
      assert assets == [body.sendAsset, body.destAsset] + body.path;
      assert assets[0] == body.sendAsset && assets[1] == body.destAsset;
      assert forall i :: 0 <= i < |body.path| ==> assets[i + 2] == body.path[i];
      assert SdkReadsOp(body) ==> SdkTakes(body.path);
    } else if assets != [] {
      assert SdkAsset(assets[0]) <==> SdkReadsOp(body);
    }
  }

  predicate SdkTakes(path: seq<Asset>) { forall i :: 0 <= i < |path| ==> SdkAsset(path[i]) }

  /** Which envelopes `verifyTransaction` hands back for signing. */
  ghost predicate Accepts(envelope: Envelope, p: Quote, r: Request, e: Expectations) {
    && QuoteAnswers(p, r, e)
    && envelope.Plain?
    && SdkReads(envelope.inner.tx)
    && Strkey(envelope.inner.tx.source) == p.TxSource()
    && envelope.inner.tx.sequence == p.sequence
    && Matches(envelope.inner.tx, p, r.ops)
  }

  /** Nothing that is already wrapped is handed back, and nothing with an asset the SDK cannot decode. */
  lemma NeverAccepted(envelope: Envelope, p: Quote, r: Request, e: Expectations)
    ensures envelope.FeeBump? ==> !Accepts(envelope, p, r, e)
    ensures (exists i, k :: 0 <= i < |envelope.inner.tx.ops| && 0 <= k < |AssetsOf(envelope.inner.tx.ops[i].body)|
                            && !SdkAsset(AssetsOf(envelope.inner.tx.ops[i].body)[k])) ==> !Accepts(envelope, p, r, e)
  {
    hide QuoteAnswers, Matches, SdkAsset, AssetsOf;
  }

  method VerifyTransaction(envelope: Envelope, p: Quote, r: Request, e: Expectations)
    returns (accepted: Option<Transaction>)
    ensures accepted.Some? <==> Accepts(envelope, p, r, e)
    ensures accepted.Some? ==> accepted.value == envelope.inner.tx
  {
    var anchored := VerifyQuote(p, r, e);
    if !anchored { return None; }
    if !SdkReads(envelope.inner.tx) { return None; }
    if envelope.FeeBump? { return None; }
    var tx := envelope.inner.tx;
    if Strkey(tx.source) != p.TxSource() { return None; }
    if tx.sequence != p.sequence { return None; }
    var ok := VerifyClassic(tx, p, r.ops);
    if ok { return Some(tx); } else { return None; }
  }
}
