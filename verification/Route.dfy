// The quoted fee route: read at quote time, looked at once more before anything is signed.
module Route {
  import opened Prelude
  import opened Stellar
  import opened Names
  import opened Plans
  import opened Decimal
  import opened Pricing

  /** `canonical` of an asset that is still a text. */
  function NameText(a: NamedAsset): AssetText {
    match a
    case NamedNative => NativeText
    case NamedCredit(code, issuer) => CodeIssuer(code, issuer)
  }

  function PathTexts(path: seq<NamedAsset>): (r: seq<AssetText>)
    ensures |r| == |path| && forall i :: 0 <= i < |path| ==> r[i] == NameText(path[i])
  {
    seq(|path|, i requires 0 <= i < |path| => NameText(path[i]))
  }

  /** Hops Horizon names incompletely are dropped. */
  function HopTexts(path: seq<PathHop>): seq<AssetText> {
    if path == [] then []
    else
      (match HopAsset(path[0]) case Some(a) => [NameText(a)] case None => []) + HopTexts(path[1..])
  }

  predicate SameCanonical(a: AssetText, b: AssetText) {
    if ParseAsset(a).Some? && ParseAsset(b).Some? then ParseAsset(a) == ParseAsset(b) else a == b
  }

  predicate SamePath(a: seq<AssetText>, b: seq<AssetText>) {
    |a| == |b| && forall i :: 0 <= i < |a| ==> SameCanonical(a[i], b[i])
  }

  predicate RecordMatches(r: PathRecord, quoted: seq<AssetText>) { SamePath(HopTexts(r.path), quoted) }

  /** The first record along the quoted hops. */
  function FirstMatch(records: seq<PathRecord>, quoted: seq<AssetText>): (m: Option<PathRecord>)
    ensures m.Some? ==> exists k :: 0 <= k < |records| && records[k] == m.value && RecordMatches(records[k], quoted)
                                    && forall i :: 0 <= i < k ==> !RecordMatches(records[i], quoted)
    ensures m.None? ==> forall r :: r in records ==> !RecordMatches(r, quoted)
  {
    if records == [] then None
    else if RecordMatches(records[0], quoted) then Some(records[0])
    else
      assert records == [records[0]] + records[1..];
      FirstMatch(records[1..], quoted)
  }

  /** `ensure_quoted_path`; `records` is what path finding answers for the charge itself. */
  function EnsureQuotedPath(records: seq<PathRecord>, feeToken: AssetText, charge: int, sendMax: int,
                            quoted: seq<AssetText>)
    : Result<(), Error>
  {
    var token :- ToResult(ParseAsset(feeToken), BadAsset(feeToken));
    if token.NamedNative? || charge <= 0 then Ok(())
    else
      var matched :- ToResult(FirstMatch(records, quoted), PathMoved("the quoted hops are gone"));
      var need :- ToResult(SourceStroops(matched), BadAmount(matched.sourceAmount));
      if need > sendMax then Err(PathMoved("the quoted route costs more now")) else Ok(())
  }

  // ---------- The check in terms of the ledger ----------

  /** A hop with both its parts, as an asset of the ledger. */
  function LedgerHop(hop: PathHop): Option<Asset> {
    match hop
    case NativeHop => Some(Native)
    case CreditHop(Some(code), Some(Strkey(id))) => if 1 <= |code| <= 12 then Some(Credit(code, id)) else None
    case _ => None
  }

  predicate Complete(hop: PathHop) { hop.NativeHop? || (hop.code.Some? && hop.issuer.Some?) }

  /** The complete hops, in order, are these assets. */
  predicate Along(path: seq<PathHop>, assets: seq<Asset>) {
    if path == [] then assets == []
    else if !Complete(path[0]) then Along(path[1..], assets)
    else assets != [] && LedgerHop(path[0]) == Some(assets[0]) && Along(path[1..], assets[1..])
  }

  predicate Reads(texts: seq<AssetText>, assets: seq<Asset>) {
    |texts| == |assets| && forall i :: 0 <= i < |texts| ==> ReadAsset(texts[i]) == Some(assets[i])
  }

  lemma SameCanonicalReads(a: AssetText, b: AssetText, x: Asset)
    requires ReadAsset(b) == Some(x)
    ensures SameCanonical(a, b) <==> ReadAsset(a) == Some(x)
  {
  }

  lemma HopReads(hop: PathHop)
    ensures HopAsset(hop).Some? <==> Complete(hop)
    ensures Complete(hop) ==> ReadAsset(NameText(HopAsset(hop).value)) == LedgerHop(hop)
  {
  }

  lemma ReadsTail(texts: seq<AssetText>, assets: seq<Asset>)
    requires Reads(texts, assets) && texts != []
    ensures ReadAsset(texts[0]) == Some(assets[0]) && Reads(texts[1..], assets[1..])
  {
    hide ReadAsset;
  }

  lemma SamePathStep(a: seq<AssetText>, b: seq<AssetText>, x: AssetText)
    requires b != []
    ensures SamePath([x] + a, b) <==> SameCanonical(x, b[0]) && SamePath(a, b[1..])
  {
    hide SameCanonical;
    var all := [x] + a;
    assert forall i :: 0 <= i < |a| ==> all[i + 1] == a[i];
    assert forall i :: 0 <= i < |b| - 1 ==> b[1..][i] == b[i + 1];
    if SamePath(all, b) {
      assert SameCanonical(all[0], b[0]);
      forall i | 0 <= i < |a| ensures SameCanonical(a[i], b[1..][i]) { assert SameCanonical(all[i + 1], b[i + 1]); }
    }
    if SameCanonical(x, b[0]) && SamePath(a, b[1..]) {
      forall i | 0 <= i < |all| ensures SameCanonical(all[i], b[i]) {
        if i > 0 { assert SameCanonical(a[i - 1], b[1..][i - 1]); }
      }
    }
  }

  /** A record goes along the quoted hops exactly when its complete hops are the same assets, one for one. */
  lemma {:induction false} MatchesAlong(path: seq<PathHop>, quoted: seq<AssetText>, assets: seq<Asset>)
    requires Reads(quoted, assets)
    ensures SamePath(HopTexts(path), quoted) <==> Along(path, assets)
  {
    hide SameCanonical, ReadAsset, HopAsset, SamePath;
    if path == [] {
      EmptyPath(quoted);
    } else {
      HopReads(path[0]);
      var rest := HopTexts(path[1..]);
      if !Complete(path[0]) {
        assert [] + rest == rest;
        MatchesAlong(path[1..], quoted, assets);
      } else {
        var x := NameText(HopAsset(path[0]).value);
        if quoted == [] {
          EmptyPath([x] + rest);
          NotEmpty(x, rest);
        } else {
          ReadsTail(quoted, assets);
          MatchesAlong(path[1..], quoted[1..], assets[1..]);
          SamePathStep(rest, quoted, x);
          SameCanonicalReads(x, quoted[0], assets[0]);
        }
      }
    }
  }

  lemma EmptyPath(texts: seq<AssetText>)
    ensures SamePath([], texts) <==> texts == []
  {
  }

  lemma NotEmpty(x: AssetText, rest: seq<AssetText>)
    ensures !SamePath([x] + rest, [])
  {
  }

  lemma RecordMatchesExactly(r: PathRecord, quoted: seq<AssetText>, assets: seq<Asset>)
    requires Reads(quoted, assets)
    ensures RecordMatches(r, quoted) <==> Along(r.path, assets)
  {
    MatchesAlong(r.path, quoted, assets);
  }

  predicate FirstAlong(records: seq<PathRecord>, k: nat, assets: seq<Asset>) {
    k < |records| && Along(records[k].path, assets) && forall i :: 0 <= i < k ==> !Along(records[i].path, assets)
  }

  /** Which record is taken: the first that goes along those assets, and none if none does. */
  lemma MatchIsFirstAlong(records: seq<PathRecord>, quoted: seq<AssetText>, assets: seq<Asset>)
    requires Reads(quoted, assets)
    ensures FirstMatch(records, quoted).Some? <==> exists k: nat :: FirstAlong(records, k, assets)
    ensures forall k: nat :: FirstAlong(records, k, assets) ==> FirstMatch(records, quoted) == Some(records[k])
  {
    hide RecordMatches, Along, Reads;
    forall r ensures RecordMatches(r, quoted) <==> Along(r.path, assets) { RecordMatchesExactly(r, quoted, assets); }
    var m := FirstMatch(records, quoted);
    if m.Some? {
      var j :| 0 <= j < |records| && records[j] == m.value && RecordMatches(records[j], quoted)
               && forall i :: 0 <= i < j ==> !RecordMatches(records[i], quoted);
      assert FirstAlong(records, j, assets);
      forall k: nat | FirstAlong(records, k, assets) ensures k == j {}
    }
    forall k: nat | FirstAlong(records, k, assets) ensures m.Some? { assert records[k] in records; }
  }

  /** What the first way along the assets asks for the charge, as far as it can be read. */
  ghost predicate AsksFor(records: seq<PathRecord>, assets: seq<Asset>, need: int) {
    exists k: nat :: FirstAlong(records, k, assets) && ParseAmountStroops(records[k].sourceAmount) == Some(need)
  }

  /**
   * The check, exactly. A fee in lumens is not repriced; otherwise the first route Horizon offers along
   * the very assets that were quoted has to ask no more than `sendMax`. A route that is gone or dearer
   * has moved; one whose amount nobody can read is an error of its own.
   */
  lemma EnsuredExactly(records: seq<PathRecord>, feeToken: AssetText, charge: int, sendMax: int,
                       quoted: seq<AssetText>, assets: seq<Asset>)
    requires Reads(quoted, assets) && ParseAsset(feeToken).Some? && charge > 0
    ensures var r := EnsureQuotedPath(records, feeToken, charge, sendMax, quoted);
      && (r.Ok? <==> feeToken == NativeText || exists need :: AsksFor(records, assets, need) && need <= sendMax)
      && (feeToken != NativeText && (forall k: nat :: !FirstAlong(records, k, assets)) ==> r.Err? && r.error.PathMoved?)
      && (feeToken != NativeText ==> forall need :: AsksFor(records, assets, need) && need > sendMax ==>
            r.Err? && r.error.PathMoved?)
      && (feeToken != NativeText ==> forall k: nat ::
            FirstAlong(records, k, assets) && ParseAmountStroops(records[k].sourceAmount).None? ==>
            r == Err(BadAmount(records[k].sourceAmount)))
      && (r.Err? && !r.error.PathMoved? ==> r.error.BadAmount?)
  {
    hide Reads, Along, ParseAmountStroops, FirstMatch;
    MatchIsFirstAlong(records, quoted, assets);
    var m := FirstMatch(records, quoted);
    if m.Some? && ParseAmountStroops(m.value.sourceAmount).Some? {
      var k: nat :| FirstAlong(records, k, assets);
      assert records[k] == m.value;
      assert AsksFor(records, assets, ParseAmountStroops(m.value.sourceAmount).value);
    }
  }

  // ---------- A market that has not moved ----------

  /** One way from the fee token to XLM, the assets it goes through, and what it takes for any amount. */
  datatype Way = Way(hops: seq<PathHop>, assets: seq<Asset>, market: Market)

  /** What Horizon answers over an unchanging set of ways. */
  function Answer(ways: seq<Way>, n: int): (records: seq<PathRecord>)
    ensures |records| == |ways|
    ensures forall i :: 0 <= i < |ways| ==>
              records[i] == PathRecord(FormatStroops(Ceil(ways[i].market(n))), ways[i].hops)
  {
    seq(|ways|, i requires 0 <= i < |ways| => PathRecord(FormatStroops(Ceil(ways[i].market(n))), ways[i].hops))
  }

  /** Every way names its assets, completely and for itself alone, and has a market whose price rises. */
  ghost predicate Sound(ways: seq<Way>) {
    && (forall i :: 0 <= i < |ways| ==> SoundWay(ways[i]))
    && forall i, j :: 0 <= i < |ways| && 0 <= j < |ways| && i != j ==> ways[i].assets != ways[j].assets
  }

  ghost predicate SoundWay(way: Way) {
    && AverageRises(way.market) && Along(way.hops, way.assets)
    && forall k :: 0 <= k < |way.hops| ==> Complete(way.hops[k])
  }

  lemma CeilNonNegative(x: real)
    requires x >= 0.0
    ensures Ceil(x) >= 0 && x <= Ceil(x) as real
  {
  }

  lemma CeilNonNegativeAt(f: Market, n: int)
    requires AverageRises(f) && n > 0
    ensures Ceil(f(n)) >= 0
  {
    CeilNonNegative(f(n));
  }

  lemma AmountReads(ways: seq<Way>, i: nat, n: int)
    requires i < |ways| && AverageRises(ways[i].market) && n > 0 && Ceil(ways[i].market(n)) <= I64_MAX
    ensures ParseAmountStroops(Answer(ways, n)[i].sourceAmount) == Some(Ceil(ways[i].market(n)))
  {
    hide FormatStroops, ParseAmountStroops;
    CeilNonNegative(ways[i].market(n));
    FormatParseRoundTrip(Ceil(ways[i].market(n)));
  }

  /** The assets a path goes along are determined by it. */
  lemma {:induction false} AlongIsUnique(path: seq<PathHop>, a: seq<Asset>, b: seq<Asset>)
    requires Along(path, a) && Along(path, b)
    ensures a == b
  {
    if path == [] {
    } else if !Complete(path[0]) {
      AlongIsUnique(path[1..], a, b);
    } else {
      AlongIsUnique(path[1..], a[1..], b[1..]);
      assert a == [a[0]] + a[1..] && b == [b[0]] + b[1..];
    }
  }

  /** Among ways through different assets, a way finds itself. */
  lemma FindsItself(ways: seq<Way>, b: nat, n: int)
    requires b < |ways| && Sound(ways)
    ensures FirstAlong(Answer(ways, n), b, ways[b].assets)
  {
    hide FormatStroops, AverageRises, Along;
    forall i | 0 <= i < b ensures !Along(ways[i].hops, ways[b].assets) {
      if Along(ways[i].hops, ways[b].assets) { AlongIsUnique(ways[i].hops, ways[i].assets, ways[b].assets); }
    }
  }

  /** The quoted path is the chosen way's assets, in the texts the service reads. */
  lemma {:induction false} QuotedReads(hops: seq<PathHop>, assets: seq<Asset>)
    requires Along(hops, assets) && HopAssets(hops).Ok?
    requires forall k :: 0 <= k < |hops| ==> Complete(hops[k])
    ensures Reads(PathTexts(HopAssets(hops).value), assets)
  {
    hide ReadAsset, HopAsset, LedgerHop;
    if hops == [] {
    } else {
      assert Complete(hops[0]);
      HopReads(hops[0]);
      QuotedReads(hops[1..], assets[1..]);
      ReadsStep(HopAsset(hops[0]).value, HopAssets(hops[1..]).value, assets);
    }
  }

  lemma ReadsStep(first: NamedAsset, rest: seq<NamedAsset>, assets: seq<Asset>)
    requires assets != [] && ReadAsset(NameText(first)) == Some(assets[0]) && Reads(PathTexts(rest), assets[1..])
    ensures Reads(PathTexts([first] + rest), assets)
  {
    hide ReadAsset, NameText;
    var texts := PathTexts([first] + rest);
    forall i | 0 <= i < |texts| ensures ReadAsset(texts[i]) == Some(assets[i]) {
      if i > 0 { assert texts[i] == PathTexts(rest)[i - 1] && assets[i] == assets[1..][i - 1]; }
    }
  }

  /**
   * `sendMax`, exactly, from the market's cost of the reference amount: scaled to the charge and rounded
   * up, then with the slippage on top and rounded up again.
   */
  predicate SendMaxFor(sendMax: int, amount: int, charge: int, referenceCost: int, bps: nat) {
    var reference := Max(charge, 10_000_000);
    && (amount - 1) * reference < charge * referenceCost <= amount * reference
    && (sendMax - 1) * 10_000 < amount * (10_000 + bps) <= sendMax * 10_000
  }

  lemma AmountFor(charge: int, cost: int)
    requires charge > 0 && cost > 0
    ensures var amount, reference := Scaled(charge, cost), Max(charge, 10_000_000);
      (amount - 1) * reference < charge * cost <= amount * reference
  {
    hide Scaled;
    ScaledIsLeast(charge, cost, Scaled(charge, cost));
    ScaledIsLeast(charge, cost, Scaled(charge, cost) - 1);
  }

  lemma ShareOnTop(amount: nat, bps: nat)
    requires amount * (10_000 + bps) <= I64_MAX * 10_000
    ensures var sendMax := ApplyBps(amount, bps);
      amount <= sendMax && (sendMax - 1) * 10_000 < amount * (10_000 + bps) <= sendMax * 10_000
  {
    hide ApplyBps;
    ApplyBpsIsLeast(amount, bps, ApplyBps(amount, bps));
    ApplyBpsIsLeast(amount, bps, ApplyBps(amount, bps) - 1);
    ApplyBpsIsLeast(amount, bps, amount - 1);
    assert amount * (10_000 + bps) == amount * 10_000 + amount * bps;
    NonNegative(amount, bps);
  }

  lemma NonNegative(a: nat, b: nat)
    ensures a * b >= 0
  {
  }

  /** The share on the larger amount fits, so the share on the smaller does. */
  lemma SmallerFits(amount: nat, cost: nat, bps: nat)
    requires amount <= cost && cost * (10_000 + bps) <= I64_MAX * 10_000
    ensures amount * (10_000 + bps) <= I64_MAX * 10_000
  {
    ProductGrows(amount, cost, 10_000 + bps);
  }

  /**
   * What a quote in another asset costs: the cheapest way at a lumen or more is taken, `sendMax` is its
   * cost scaled to the charge with the slippage on top, and that is at least what the charge itself costs
   * on that way.
   */
  lemma PricedFromMarket(ways: seq<Way>, plan: Plan, token: NamedAsset, params: NetworkParams, cfg: Config, bps: nat,
                         c: Cost) returns (b: nat)
    requires Sound(ways) && token.NamedCredit? && ChargeFor(plan, params, cfg) > 0
    requires var reference := Max(ChargeFor(plan, params, cfg), 10_000_000);
      && (forall i :: 0 <= i < |ways| ==>
            Ceil(ways[i].market(reference)) <= I64_MAX
            && Ceil(ways[i].market(reference)) * (10_000 + bps) <= I64_MAX * 10_000)
      && Price(plan, token, Answer(ways, reference), params, cfg, bps) == Ok(c)
    ensures b < |ways| && c.charge == ChargeFor(plan, params, cfg) && Reads(PathTexts(c.path), ways[b].assets)
    ensures var reference := Max(c.charge, 10_000_000);
      var cost := Ceil(ways[b].market(reference));
      && (forall i :: 0 <= i < |ways| ==> cost <= Ceil(ways[i].market(reference)))
      && (exists amount :: SendMaxFor(c.sendMax, amount, c.charge, cost, bps))
      && Ceil(ways[b].market(c.charge)) <= c.sendMax && Ceil(ways[b].market(c.charge)) <= I64_MAX
  {
    hide AverageRises, FormatStroops, ParseAmountStroops, ApplyBps, Scaled, Ceil, HopAssets, AsI64, Along, ChargeFor;
    hide SourceStroops, Complete, Reads, PathTexts, NetworkFee;
    var charge := ChargeFor(plan, params, cfg);
    var big := Max(charge, 10_000_000);
    var records := Answer(ways, big);
    b := BestWay(ways, big);
    var cost := Ceil(ways[b].market(big));
    ScaledIsSafe(ways[b].market, charge);
    AmountFor(charge, cost);
    ScaledAtMost(charge, cost);
    CastFits(Scaled(charge, cost));
    SmallerFits(Scaled(charge, cost), cost, bps);
    ShareOnTop(Scaled(charge, cost), bps);
    assert SendMaxFor(c.sendMax, Scaled(charge, cost), c.charge, cost, bps);
    QuotedReads(ways[b].hops, ways[b].assets);
  }

  lemma BestWay(ways: seq<Way>, big: int) returns (b: nat)
    requires Sound(ways) && big > 0 && Cheapest(Answer(ways, big)).Some?
    requires forall i :: 0 <= i < |ways| ==> Ceil(ways[i].market(big)) <= I64_MAX
    ensures b < |ways| && Cheapest(Answer(ways, big)) == Some(Answer(ways, big)[b])
    ensures SourceStroops(Answer(ways, big)[b]) == Some(Ceil(ways[b].market(big)))
    ensures forall i :: 0 <= i < |ways| ==> Ceil(ways[b].market(big)) <= Ceil(ways[i].market(big))
  {
    hide AverageRises, FormatStroops, ParseAmountStroops, Ceil, Along, Complete;
    var records := Answer(ways, big);
    var k: nat :| IsFirstLeast(records, k) && records[k] == Cheapest(records).value;
    b := k;
    forall i | 0 <= i < |ways| ensures SourceStroops(records[i]) == Some(Ceil(ways[i].market(big))) {
      AmountReads(ways, i, big);
    }
  }

  /** A fee in lumens: nothing to convert, the slippage on the charge, rounded up. */
  lemma PricedInLumens(plan: Plan, records: seq<PathRecord>, params: NetworkParams, cfg: Config, bps: nat)
    requires 0 <= ChargeFor(plan, params, cfg) && ChargeFor(plan, params, cfg) * (10_000 + bps) <= I64_MAX * 10_000
    ensures var r := Price(plan, NamedNative, records, params, cfg, bps);
      && r.Ok? && r.value.charge == ChargeFor(plan, params, cfg) && r.value.path == []
      && r.value.charge <= r.value.sendMax
      && (r.value.sendMax - 1) * 10_000 < r.value.charge * (10_000 + bps) <= r.value.sendMax * 10_000
  {
    hide ApplyBps, ChargeFor, NetworkFee;
    ShareOnTop(ChargeFor(plan, params, cfg), bps);
  }

  /**
   * On a market that has not moved, a quote passes its own route check: what was priced at a lumen or
   * more still covers what the quoted assets cost for the charge itself.
   */
  lemma UnmovedBookPasses(ways: seq<Way>, feeToken: AssetText, token: NamedAsset, plan: Plan, params: NetworkParams,
                          cfg: Config, bps: nat, c: Cost)
    requires Sound(ways) && ParseAsset(feeToken) == Some(token) && ChargeFor(plan, params, cfg) > 0
    requires var reference := Max(ChargeFor(plan, params, cfg), 10_000_000);
      && (forall i :: 0 <= i < |ways| ==>
            Ceil(ways[i].market(reference)) <= I64_MAX
            && Ceil(ways[i].market(reference)) * (10_000 + bps) <= I64_MAX * 10_000)
      && Price(plan, token, Answer(ways, reference), params, cfg, bps) == Ok(c)
    ensures EnsureQuotedPath(Answer(ways, c.charge), feeToken, c.charge, c.sendMax, PathTexts(c.path)).Ok?
  {
    hide AverageRises, FormatStroops, ParseAmountStroops, Ceil, Along, ChargeFor, Price, Reads, PathTexts, Sound;
    hide EnsureQuotedPath, Complete, FirstAlong;
    if token.NamedCredit? {
      var b := PricedFromMarket(ways, plan, token, params, cfg, bps, c);
      FindsItself(ways, b, c.charge);
      SoundAt(ways, b);
      AmountReads(ways, b, c.charge);
      var need := Ceil(ways[b].market(c.charge));
      assert AsksFor(Answer(ways, c.charge), ways[b].assets, need);
      EnsuredExactly(Answer(ways, c.charge), feeToken, c.charge, c.sendMax, PathTexts(c.path), ways[b].assets);
    } else {
      NativePasses(Answer(ways, c.charge), feeToken, c.charge, c.sendMax, PathTexts(c.path));
    }
  }

  lemma SoundAt(ways: seq<Way>, b: nat)
    requires Sound(ways) && b < |ways|
    ensures AverageRises(ways[b].market)
  {
  }

  lemma NativePasses(records: seq<PathRecord>, feeToken: AssetText, charge: int, sendMax: int, quoted: seq<AssetText>)
    requires ParseAsset(feeToken) == Some(NamedNative)
    ensures EnsureQuotedPath(records, feeToken, charge, sendMax, quoted) == Ok(())
  {
  }
}
