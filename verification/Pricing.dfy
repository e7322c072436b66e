// From a plan to a price: what the sponsor is out of pocket, and how much of the user's token covers it.
module Pricing {
  import opened Prelude
  import opened Names
  import opened Plans
  import opened Decimal

  datatype NetworkParams = NetworkParams(baseFee: int, baseReserve: int, latestLedger: nat) {
    /** Both are unsigned 32-bit fields of the ledger header. */
    predicate InRange() { 0 <= baseFee < TWO_32 && 0 <= baseReserve < TWO_32 }
  }

  datatype Config = Config(marginBps: nat, slippageBps: nat, validityLedgers: nat, minCharge: int)

  datatype Cost = Cost(networkFee: int, reserve: int, charge: int, sendMax: int, path: seq<NamedAsset>)

  /** Rust's integer division drops the fraction, towards zero. */
  function TruncDiv(a: int, b: int): int
    requires b > 0
  {
    if a >= 0 then a / b else -((-a) / b)
  }

  /** Add basis points, rounding up in 128 bits, then cast to 64 and add with saturation. */
  function ApplyBps(value: int, bps: nat): int {
    Saturate(value + AsI64(TruncDiv(value * bps + 9_999, 10_000)))
  }

  /** The share rounded up still fits the 64 bits it is cast to. */
  predicate ShareFits(value: int, bps: nat) { value * bps <= I64_MAX * 10_000 }

  lemma BpsExtra(value: nat, bps: nat)
    ensures var extra := TruncDiv(value * bps + 9_999, 10_000);
      extra >= 0 && extra * 10_000 >= value * bps && (extra - 1) * 10_000 < value * bps
      && (ShareFits(value, bps) <==> extra <= I64_MAX)
  {
    assert value * bps >= 0;
  }

  lemma UpTo100PercentFits(value: nat, bps: nat)
    requires value <= I64_MAX && bps <= 10_000
    ensures ShareFits(value, bps)
  {
    ProductGrows(bps, 10_000, value);
    assert value * bps == bps * value;
  }

  /** As long as the share fits, the result is the exact sum, rounded up, and stops at the largest `i64`. */
  lemma ApplyBpsRaises(value: nat, bps: nat)
    requires value <= I64_MAX && ShareFits(value, bps)
    ensures value <= ApplyBps(value, bps) <= I64_MAX
    ensures ApplyBps(value, bps) < I64_MAX ==> ApplyBps(value, bps) * 10_000 >= value * (10_000 + bps)
    ensures ApplyBps(value, bps) > value ==> (ApplyBps(value, bps) - 1) * 10_000 < value * (10_000 + bps)
  {
    BpsExtra(value, bps);
    var extra := TruncDiv(value * bps + 9_999, 10_000);
    assert AsI64(extra) == extra;
    assert value * (10_000 + bps) == value * 10_000 + value * bps;
    hide TruncDiv, AsI64;
  }

  /** Below saturation it is the least whole number that holds value and share together. */
  lemma ApplyBpsIsLeast(value: nat, bps: nat, n: int)
    requires value * (10_000 + bps) <= I64_MAX * 10_000
    ensures n >= ApplyBps(value, bps) <==> n * 10_000 >= value * (10_000 + bps)
  {
    assert value * (10_000 + bps) == value * 10_000 + value * bps;
    BpsExtra(value, bps);
    var extra := TruncDiv(value * bps + 9_999, 10_000);
    assert AsI64(extra) == extra;
    hide TruncDiv, AsI64;
  }

  /** The least price whose margin no longer fits comes out below itself. */
  lemma WrappingPrice(bps: nat) returns (value: nat)
    requires 10_000 < bps < TWO_32
    ensures 0 < value <= I64_MAX && ApplyBps(value, bps) < value
  {
    var target := (I64_MAX + 1) * 10_000;
    value := (target - 9_999 + bps - 1) / bps;
    var product := value * bps;
    LeastMultiple(target - 9_999, bps, value);
    var extra := TruncDiv(product + 9_999, 10_000);
    assert I64_MAX < extra < TWO_64;
    assert AsI64(extra) < 0;
    assert value <= I64_MAX by {
      if value > I64_MAX { AtLeast(value - 1, bps); }
    }
  }

  lemma LeastMultiple(target: int, bps: int, value: int)
    requires bps > 0 && value == (target + bps - 1) / bps
    ensures target <= value * bps < target + bps
  {
  }

  lemma AtLeast(v: int, bps: int)
    requires v >= I64_MAX && bps > 10_000
    ensures v * bps >= I64_MAX * 10_001
  {
    assert v * bps >= I64_MAX * bps;
    assert I64_MAX * bps >= I64_MAX * 10_001;
  }

  /** What the user is asked for in XLM: cost plus margin, and never less than the floor plus reserves. */
  function ChargeFor(plan: Plan, params: NetworkParams, cfg: Config): int {
    Max(ApplyBps(Saturate(NetworkFee(plan, params) + plan.ReserveStroops(params.baseReserve)), cfg.marginBps),
        Saturate(cfg.minCharge + plan.ReserveStroops(params.baseReserve)))
  }

  /** The fee-bump pays for one operation more than the inner transaction. */
  function NetworkFee(plan: Plan, params: NetworkParams): int {
    Saturate(params.baseFee * (plan.OpCount() + 1))
  }

  lemma {:induction false} UnitsBounded(ops: seq<UserOp>)
    ensures Units(ops) <= 2 * |ops|
  {
    if ops != [] { UnitsBounded(ops[..|ops| - 1]); }
  }

  lemma Products(a: nat, bound: nat, b: int)
    requires a <= bound && 0 <= b < TWO_32
    ensures 0 <= b * a == a * b <= bound * TWO_32
  {
    assert a * b <= bound * b;
  }

  /** No 32-bit margin makes the cast wrap at the sizes a plan can cost. */
  lemma MarginFits(raw: nat, bps: nat)
    requires raw <= 64 * TWO_32 && bps < TWO_32
    ensures ShareFits(raw, bps)
  {
    Products(raw, 64 * TWO_32, bps);
  }

  /** The charge covers the outer fee and every stroop of reserves, whatever the margin. */
  lemma ChargeCoversCost(ops: seq<UserOp>, accountExists: bool, params: NetworkParams, cfg: Config)
    requires PlanFor(ops, accountExists).Ok? && params.InRange() && cfg.marginBps < TWO_32
    ensures var plan := PlanFor(ops, accountExists).value;
      && NetworkFee(plan, params) == params.baseFee * (plan.OpCount() + 1)
      && plan.ReserveStroops(params.baseReserve) == Units(ops) * params.baseReserve
      && ChargeFor(plan, params, cfg) >= NetworkFee(plan, params) + plan.ReserveStroops(params.baseReserve)
      && IsI64(ChargeFor(plan, params, cfg))
  {
    hide ApplyBps, ShareFits, PlanFor, Units;
    var plan := PlanFor(ops, accountExists).value;
    PlanLocksItsUnits(ops, accountExists, params.baseReserve);
    UnitsBounded(ops);
    PlanIsShort(ops, accountExists);
    Products(plan.OpCount() + 1, 24, params.baseFee);
    Products(Units(ops), 40, params.baseReserve);
    var raw := NetworkFee(plan, params) + plan.ReserveStroops(params.baseReserve);
    assert 0 <= raw <= 64 * TWO_32 <= I64_MAX;
    MarginFits(raw, cfg.marginBps);
    ApplyBpsRaises(raw, cfg.marginBps);
  }

  /**
   * The charge, exactly: the least whole number that holds the network's base fee for every operation,
   * the sandwich, the fee payment and the bump, plus the reserves locked, plus the margin on both; and
   * never less than the floor on top of the reserves.
   */
  lemma ChargeIsLeast(ops: seq<UserOp>, accountExists: bool, params: NetworkParams, cfg: Config, n: int)
    requires PlanFor(ops, accountExists).Ok? && params.InRange() && cfg.marginBps < TWO_32
    requires IsI64(cfg.minCharge) && cfg.minCharge + Units(ops) * params.baseReserve <= I64_MAX
    ensures var reserves := Units(ops) * params.baseReserve;
      var fees := params.baseFee * (|ops| + (if Units(ops) > 0 then 2 else 0) + 2);
      n >= ChargeFor(PlanFor(ops, accountExists).value, params, cfg)
      <==> n * 10_000 >= (fees + reserves) * (10_000 + cfg.marginBps) && n >= cfg.minCharge + reserves
  {
    hide ApplyBps, PlanFor, Units, NetworkFee;
    var plan := PlanFor(ops, accountExists).value;
    RawCost(ops, accountExists, params);
    var raw := NetworkFee(plan, params) + plan.ReserveStroops(params.baseReserve);
    MarginProduct(raw, cfg.marginBps);
    ApplyBpsIsLeast(raw, cfg.marginBps, n);
  }

  lemma MarginProduct(raw: nat, bps: nat)
    requires raw <= 64 * TWO_32 && bps < TWO_32
    ensures raw * (10_000 + bps) <= I64_MAX * 10_000
  {
    Products(raw, 64 * TWO_32, bps);
    assert raw * (10_000 + bps) == raw * 10_000 + raw * bps;
  }

  /** What the network takes for a plan: fees for every operation counted and one more, and reserves. */
  lemma RawCost(ops: seq<UserOp>, accountExists: bool, params: NetworkParams)
    requires PlanFor(ops, accountExists).Ok? && params.InRange()
    ensures var plan := PlanFor(ops, accountExists).value;
      && NetworkFee(plan, params) == params.baseFee * (|ops| + (if Units(ops) > 0 then 2 else 0) + 2)
      && plan.ReserveStroops(params.baseReserve) == Units(ops) * params.baseReserve
      && 0 <= NetworkFee(plan, params) && 0 <= Units(ops) * params.baseReserve
      && NetworkFee(plan, params) + Units(ops) * params.baseReserve <= 64 * TWO_32
  {
    hide PlanFor, Units;
    var plan := PlanFor(ops, accountExists).value;
    PlanLocksItsUnits(ops, accountExists, params.baseReserve);
    UnitsBounded(ops);
    PlanIsShort(ops, accountExists);
    Products(plan.OpCount() + 1, 24, params.baseFee);
    Products(Units(ops), 40, params.baseReserve);
  }

  lemma PlanIsShort(ops: seq<UserOp>, accountExists: bool)
    requires PlanFor(ops, accountExists).Ok?
    ensures |ops| <= 20 && PlanFor(ops, accountExists).value.OpCount() <= 23
  {
    hide Count, FirstError;
  }

  // ---------- The user's token ----------

  datatype PathHop = NativeHop | CreditHop(code: Option<string>, issuer: Option<Address>)

  datatype PathRecord = PathRecord(sourceAmount: string, path: seq<PathHop>)

  function HopAsset(hop: PathHop): Option<NamedAsset> {
    match hop
    case NativeHop => Some(NamedNative)
    case CreditHop(code, issuer) =>
      var c :- code;
      var i :- issuer;
      Some(NamedCredit(c, i))
  }

  function SourceStroops(r: PathRecord): Option<int> { ParseAmountStroops(r.sourceAmount) }

  /** Cheaper than every readable record before it, and no dearer than any after it. */
  predicate IsFirstLeast(records: seq<PathRecord>, k: nat) {
    && k < |records| && SourceStroops(records[k]).Some?
    && (forall i :: 0 <= i < k && SourceStroops(records[i]).Some? ==>
          SourceStroops(records[k]).value < SourceStroops(records[i]).value)
    && (forall i :: k <= i < |records| && SourceStroops(records[i]).Some? ==>
          SourceStroops(records[k]).value <= SourceStroops(records[i]).value)
  }

  /** First record of least readable source amount. */
  function Cheapest(records: seq<PathRecord>): (best: Option<PathRecord>)
    ensures best.Some? ==> exists k: nat :: IsFirstLeast(records, k) && records[k] == best.value
    ensures best.Some? ==> best.value in records && SourceStroops(best.value).Some?
    ensures best.Some? ==> forall r :: r in records && SourceStroops(r).Some? ==>
              SourceStroops(best.value).value <= SourceStroops(r).value
    ensures best.None? ==> forall r :: r in records ==> SourceStroops(r).None?
  {
    if records == [] then None
    else
      var front, last := Cheapest(records[..|records| - 1]), records[|records| - 1];
      assert forall r :: r in records ==> r in records[..|records| - 1] || r == last;
      CheapestExtends(records, front);
      if SourceStroops(last).None? then front
      else if front.Some? && SourceStroops(front.value).value <= SourceStroops(last).value then front
      else Some(last)
  }

  lemma CheapestExtends(records: seq<PathRecord>, front: Option<PathRecord>)
    requires records != [] && (front.Some? ==> SourceStroops(front.value).Some?)
    requires front.Some? ==> exists k: nat :: IsFirstLeast(records[..|records| - 1], k) && records[k] == front.value
    requires front.None? ==> forall i :: 0 <= i < |records| - 1 ==> SourceStroops(records[i]).None?
    ensures var last := records[|records| - 1];
      var best := if SourceStroops(last).None? then front
                  else if front.Some? && SourceStroops(front.value).value <= SourceStroops(last).value then front
                  else Some(last);
      best.Some? ==> exists k: nat :: IsFirstLeast(records, k) && records[k] == best.value
  {
    hide ParseAmountStroops;
    var last := records[|records| - 1];
    if front.Some? {
      var k: nat :| IsFirstLeast(records[..|records| - 1], k) && records[k] == front.value;
      if SourceStroops(last).None? || SourceStroops(front.value).value <= SourceStroops(last).value {
        assert IsFirstLeast(records, k);
      } else {
        assert IsFirstLeast(records, |records| - 1);
      }
    } else if SourceStroops(last).Some? {
      assert IsFirstLeast(records, |records| - 1);
    }
  }

  function HopAssets(path: seq<PathHop>): Result<seq<NamedAsset>, Error> {
    if path == [] then Ok([])
    else
      var hop :- ToResult(HopAsset(path[0]), BadAsset(NoColon("path hop")));
      var rest :- HopAssets(path[1..]);
      Ok([hop] + rest)
  }

  const REFERENCE_STROOPS: int := 10_000_000

  /** The size at which the rate is read: never dust. */
  function ReferenceFor(xlm: int): int { Max(xlm, REFERENCE_STROOPS) }

  /** The cost of the reference amount, scaled down to the amount bought and rounded up. */
  function Scaled(xlm: int, referenceCost: int): int {
    Max(TruncDiv(xlm * referenceCost + ReferenceFor(xlm) - 1, ReferenceFor(xlm)), 1)
  }

  /** `records` is what path finding answers for `ReferenceFor(xlm)`. */
  function TokenAmountForXlm(records: seq<PathRecord>, xlm: int): Result<(int, seq<NamedAsset>), Error> {
    var best :- ToResult(Cheapest(records), NoPath);
    var referenceCost := SourceStroops(best).value;
    if referenceCost <= 0 then Err(NoPath)
    else
      var path :- HopAssets(best.path);
      Ok((AsI64(Scaled(xlm, referenceCost)), path))
  }

  /** Horizon is asked only when the fee token is not XLM itself. */
  function Price(plan: Plan, token: NamedAsset, records: seq<PathRecord>, params: NetworkParams, cfg: Config,
                 slippageBps: nat): Result<Cost, Error>
  {
    var fee, reserve, charge :=
      NetworkFee(plan, params), plan.ReserveStroops(params.baseReserve), ChargeFor(plan, params, cfg);
    if token.NamedNative? then Ok(Cost(fee, reserve, charge, ApplyBps(charge, slippageBps), []))
    else
      var (amount, path) :- TokenAmountForXlm(records, charge);
      Ok(Cost(fee, reserve, charge, ApplyBps(amount, slippageBps), path))
  }

  // ---------- Slippage ----------

  /** What the token amount can be: any positive 64-bit number, nothing else. */
  lemma TokenAmountRange(records: seq<PathRecord>, xlm: int)
    requires 0 < xlm <= I64_MAX && TokenAmountForXlm(records, xlm).Ok?
    ensures 0 < TokenAmountForXlm(records, xlm).value.0 <= I64_MAX
  {
    hide Cheapest, HopAssets, AsI64, ParseAmountStroops;
    var cost := SourceStroops(Cheapest(records).value).value;
    ReadAmountFits(Cheapest(records).value.sourceAmount);
    ScaledAtMost(xlm, cost);
    CastFits(Scaled(xlm, cost));
  }

  lemma ReadAmountFits(s: string)
    ensures ParseAmountStroops(s).Some? ==> 0 <= ParseAmountStroops(s).value <= I64_MAX
  {
  }

  lemma CastFits(x: int)
    requires IsI64(x)
    ensures AsI64(x) == x
  {
  }

  lemma ScaledAtMost(xlm: int, cost: int)
    requires xlm > 0 && cost > 0
    ensures 1 <= Scaled(xlm, cost) <= cost
    ensures xlm >= REFERENCE_STROOPS ==> Scaled(xlm, cost) == cost
  {
    var big := ReferenceFor(xlm);
    PositiveProduct(xlm, cost);
    ProductGrows(xlm, big, cost);
    var up := CeilDiv(xlm * cost, big);
    assert Scaled(xlm, cost) == Max(up, 1);
    CeilDivIsLeast(xlm * cost, big);
    assert up * big < (cost + 1) * big;
    SmallerFactor(up, cost + 1, big);
    if xlm == big {
      assert (cost - 1) * big < up * big;
      SmallerFactor(cost - 1, up, big);
    }
  }

  /** The scaled amount, exactly: the least that is to the amount bought as the cost is to the reference. */
  lemma ScaledIsLeast(xlm: int, cost: int, n: int)
    requires xlm > 0 && cost > 0
    ensures n >= Scaled(xlm, cost) <==> n * Max(xlm, 10_000_000) >= xlm * cost
  {
    var big := Max(xlm, 10_000_000);
    PositiveProduct(xlm, cost);
    var up := CeilDiv(xlm * cost, big);
    CeilDivIsLeast(xlm * cost, big);
    assert up >= 1 by { if up <= 0 { ProductGrows(up, 0, big); } }
    assert Scaled(xlm, cost) == up;
    if n >= up { ProductGrows(up, n, big); }
    if n < up {
      ProductGrows(n, up - 1, big);
      assert (up - 1) * big == up * big - big;
    }
  }

  /** One of the records can be read, as that. */
  predicate Asks(records: seq<PathRecord>, stroops: int) {
    exists i :: 0 <= i < |records| && ParseAmountStroops(records[i].sourceAmount) == Some(stroops)
  }

  /** There is no price exactly when nothing readable is offered, or something readable for nothing. */
  lemma UnpricedExactly(records: seq<PathRecord>, xlm: int)
    ensures TokenAmountForXlm(records, xlm) == Err(NoPath) <==> (forall n :: !Asks(records, n)) || Asks(records, 0)
    ensures TokenAmountForXlm(records, xlm).Err? && TokenAmountForXlm(records, xlm).error != NoPath ==>
              TokenAmountForXlm(records, xlm).error.BadAsset?
  {
    hide ParseAmountStroops, HopAssets, Scaled;
    forall r | r in records ensures SourceStroops(r).Some? ==> SourceStroops(r).value >= 0 {
      ReadAmountFits(r.sourceAmount);
    }
    var best := Cheapest(records);
    if best.Some? {
      HopErrors(best.value.path);
      assert Asks(records, SourceStroops(best.value).value);
    }
    forall n | Asks(records, n)
      ensures best.Some? && SourceStroops(best.value).value <= n
    {
      var i :| 0 <= i < |records| && ParseAmountStroops(records[i].sourceAmount) == Some(n);
      assert records[i] in records && SourceStroops(records[i]) == Some(n);
    }
  }

  lemma {:induction false} HopErrors(path: seq<PathHop>)
    ensures HopAssets(path).Err? ==> HopAssets(path).error.BadAsset?
  {
    if path == [] {
    } else {
      HopErrors(path[1..]);
    }
  }

  lemma OneRecord(amount: int)
    requires 0 < amount <= I64_MAX
    ensures var records := [PathRecord(FormatStroops(amount), [])];
      TokenAmountForXlm(records, REFERENCE_STROOPS) == Ok((amount, []))
  {
    hide FormatStroops, ParseAmountStroops, AsI64;
    FormatParseRoundTrip(amount);
    var records := [PathRecord(FormatStroops(amount), [])];
    assert records[..|records| - 1] == [];
    assert Cheapest(records) == Some(records[0]);
    ScaledAtMost(REFERENCE_STROOPS, amount);
    CastFits(amount);
  }

  /** Slippage never takes a token amount below itself, whatever Horizon answered for whatever charge. */
  ghost predicate SlippageSafe(bps: nat) {
    forall records, xlm :: 0 < xlm <= I64_MAX && TokenAmountForXlm(records, xlm).Ok? ==>
      var amount := TokenAmountForXlm(records, xlm).value.0;
      ApplyBps(amount, bps) >= amount
  }

  /**
   * The slippage added to a token amount is safe for every answer of path finding exactly when it is
   * at most 100%: past that the cast back to 64 bits wraps on some amount, and `sendMax` comes out
   * below the amount it should leave room for.
   */
  lemma SlippageSafeExactlyUpTo100Percent(bps: nat)
    requires bps < TWO_32
    ensures SlippageSafe(bps) <==> bps <= 10_000
  {
    hide TokenAmountForXlm, ApplyBps, ShareFits;
    if bps <= 10_000 {
      forall records, xlm | 0 < xlm <= I64_MAX && TokenAmountForXlm(records, xlm).Ok?
        ensures var amount := TokenAmountForXlm(records, xlm).value.0; ApplyBps(amount, bps) >= amount
      {
        TokenAmountRange(records, xlm);
        UpTo100PercentFits(TokenAmountForXlm(records, xlm).value.0, bps);
        ApplyBpsRaises(TokenAmountForXlm(records, xlm).value.0, bps);
      }
    } else {
      var amount := WrappingPrice(bps);
      OneRecord(amount);
      assert TokenAmountForXlm([PathRecord(FormatStroops(amount), [])], REFERENCE_STROOPS).Ok?;
    }
  }

  // ---------- The market behind the records ----------

  function Ceil(r: real): int { -((-r).Floor) }

  /** What a route takes for `n` stroops of XLM: an exact cost, charged in whole stroops. */
  type Market = int -> real

  /** The average price does not fall with size: a book is eaten from its cheapest offer up. */
  ghost predicate AverageRises(f: Market) {
    && (forall n :: n > 0 ==> f(n) >= 0.0)
    && forall x, y :: 0 < x <= y ==> f(x) * y as real <= f(y) * x as real
  }

  /**
   * Reading the rate at a lumen or more and scaling it down never quotes below what the smaller
   * purchase costs, and never above what the larger one does.
   */
  lemma ScaledIsSafe(f: Market, xlm: int)
    requires AverageRises(f) && xlm > 0 && Ceil(f(ReferenceFor(xlm))) > 0
    ensures Ceil(f(xlm)) <= Scaled(xlm, Ceil(f(ReferenceFor(xlm)))) <= Ceil(f(ReferenceFor(xlm)))
  {
    var big := ReferenceFor(xlm);
    var cost := Ceil(f(big));
    var up := CeilDiv(xlm * cost, big);
    assert xlm * cost > 0 by { PositiveProduct(xlm, cost); }
    assert Scaled(xlm, cost) == Max(up, 1);
    CeilDivIsLeast(xlm * cost, big);
    assert f(xlm) <= up as real by {
      assert f(xlm) * big as real <= f(big) * xlm as real;
      ScaledReal(f(xlm), f(big), xlm, big, cost, up);
    }
    assert up <= cost by {
      ProductGrows(xlm, big, cost);
      SmallerFactor(up - 1, cost, big);
    }
  }

  lemma PositiveProduct(a: int, b: int)
    requires a > 0 && b > 0
    ensures a * b > 0
  {
  }

  lemma ProductGrows(a: int, b: int, c: int)
    requires a <= b && c >= 0
    ensures a * c <= b * c
  {
  }

  lemma SmallerFactor(a: int, b: int, c: int)
    requires c > 0 && a * c < b * c
    ensures a < b
  {
    ProductGrows(b, Max(a, b), c);
  }

  lemma RealFactor(a: real, b: real, c: real)
    requires c > 0.0
    ensures a > b ==> a * c > b * c
  {
  }

  lemma ScaledReal(small: real, large: real, x: int, big: int, cost: int, up: int)
    requires 0 < x <= big && small * big as real <= large * x as real
    requires large <= cost as real && x * cost <= up * big
    ensures small <= up as real
  {
    assert large * x as real <= cost as real * x as real;
    assert cost as real * x as real == (x * cost) as real;
    assert (x * cost) as real <= (up * big) as real == up as real * big as real;
    RealFactor(small, up as real, big as real);
  }

  // ---------- A sorted book has that shape ----------

  datatype Offer = Offer(price: real, size: real)

  predicate Book(offers: seq<Offer>) {
    && (forall i :: 0 <= i < |offers| ==> offers[i].price >= 0.0 && offers[i].size > 0.0)
    && forall i, j :: 0 <= i < j < |offers| ==> offers[i].price <= offers[j].price
  }

  /** Cost of taking `n` from the front; past the end the last price goes on. */
  function Take(offers: seq<Offer>, n: real): real
    requires offers != [] && n >= 0.0
  {
    if |offers| == 1 || n <= offers[0].size then n * offers[0].price
    else offers[0].size * offers[0].price + Take(offers[1..], n - offers[0].size)
  }

  lemma BookTail(offers: seq<Offer>)
    requires Book(offers) && |offers| > 1
    ensures Book(offers[1..]) && offers[0].price <= offers[1..][0].price
  {
  }

  lemma TakeFirst(offers: seq<Offer>, n: real)
    requires offers != [] && n >= 0.0 && (|offers| == 1 || n <= offers[0].size)
    ensures Take(offers, n) == n * offers[0].price
  {
  }

  lemma TakeMore(offers: seq<Offer>, n: real)
    requires Book(offers) && |offers| > 1 && n > offers[0].size
    ensures Take(offers, n) == offers[0].size * offers[0].price + Take(offers[1..], n - offers[0].size)
  {
  }

  /** Every further unit costs at least the best price. */
  lemma {:induction false} MarginalAtLeast(offers: seq<Offer>, x: real, y: real, p: real)
    requires Book(offers) && offers != [] && 0.0 <= x <= y && p <= offers[0].price
    ensures Take(offers, y) - Take(offers, x) >= p * (y - x)
  {
    hide Take;
    var o := offers[0];
    if |offers| == 1 || y <= o.size {
      TakeFirst(offers, x);
      TakeFirst(offers, y);
      DearerStretch(x, y, p, o.price);
    } else {
      BookTail(offers);
      TakeMore(offers, y);
      var b := y - o.size;
      if x <= o.size {
        TakeFirst(offers, x);
        TakeNothing(offers[1..]);
        MarginalAtLeast(offers[1..], 0.0, b, p);
        assert Take(offers[1..], b) >= p * b by { assert b - 0.0 == b; }
        DearerStretch(x, o.size, p, o.price);
        Stretches(p, x, o.size, y);
      } else {
        TakeMore(offers, x);
        var a := x - o.size;
        MarginalAtLeast(offers[1..], a, b, p);
        var front := o.size * o.price;
        assert Take(offers, y) == front + Take(offers[1..], b);
        assert Take(offers, x) == front + Take(offers[1..], a);
        assert p * (b - a) == p * (y - x) by { assert b - a == y - x; }
      }
    }
  }

  lemma NonNegativeProduct(a: real, b: real)
    requires a >= 0.0 && b >= 0.0
    ensures a * b >= 0.0
  {
  }

  lemma DearerStretch(x: real, y: real, p: real, price: real)
    requires x <= y && p <= price
    ensures y * price - x * price >= p * (y - x)
  {
    var d, g := y - x, price - p;
    NonNegativeProduct(d, g);
    assert d * price == d * p + d * g by { assert price == p + g; }
    assert y * price == x * price + d * price by { assert y == x + d; }
  }

  lemma Stretches(p: real, x: real, m: real, y: real)
    ensures p * (y - x) == p * (m - x) + p * (y - m)
  {
  }

  lemma TakeNothing(offers: seq<Offer>)
    requires Book(offers) && offers != []
    ensures Take(offers, 0.0) == 0.0
  {
  }

  lemma {:induction false} BookAverageRises(offers: seq<Offer>, x: real, y: real)
    requires Book(offers) && offers != [] && 0.0 <= x <= y
    ensures Take(offers, x) * y <= Take(offers, y) * x
  {
    hide Take;
    var o := offers[0];
    if |offers| == 1 || y <= o.size {
      TakeFirst(offers, x);
      TakeFirst(offers, y);
      Swap(x, o.price, y);
    } else if x <= o.size {
      TakeFirst(offers, x);
      MarginalAtLeast(offers, 0.0, y, o.price);
      TakeNothing(offers);
      FlatThenRising(x, y, o.price, Take(offers, y));
    } else {
      BookTail(offers);
      TakeMore(offers, x);
      TakeMore(offers, y);
      var x', y' := x - o.size, y - o.size;
      BookAverageRises(offers[1..], x', y');
      MarginalAtLeast(offers[1..], x', y', o.price);
      ShiftedAverage(o.size, o.price, x', y', Take(offers[1..], x'), Take(offers[1..], y'));
    }
  }

  lemma Swap(x: real, p: real, y: real)
    ensures (x * p) * y == (y * p) * x
  {
  }

  lemma FlatThenRising(x: real, y: real, p: real, total: real)
    requires x >= 0.0 && total >= p * y
    ensures (x * p) * y <= total * x
  {
    assert (x * p) * y == (p * y) * x;
    assert (total - p * y) * x >= 0.0;
  }

  lemma ShiftedAverage(s: real, p: real, x: real, y: real, cx: real, cy: real)
    requires s > 0.0 && cx * y <= cy * x && cy - cx >= p * (y - x)
    ensures (s * p + cx) * (s + y) <= (s * p + cy) * (s + x)
  {
    var gain := cy - cx - p * (y - x);
    assert s * gain >= 0.0;
    calc {
      (s * p + cy) * (s + x) - (s * p + cx) * (s + y);
      s * p * x - s * p * y + s * cy - s * cx + cy * x - cx * y;
      s * gain + (cy * x - cx * y);
    }
  }

  lemma TakeNonNegative(offers: seq<Offer>, n: real)
    requires Book(offers) && offers != [] && n >= 0.0
    ensures Take(offers, n) >= 0.0
  {
    MarginalAtLeast(offers, 0.0, n, 0.0);
    TakeNothing(offers);
  }

  function BookMarket(offers: seq<Offer>): Market
    requires offers != []
  {
    n => if n >= 0 then Take(offers, n as real) else 0.0
  }

  /** So every sorted book is a market the scaled price is safe on. */
  lemma SortedBookIsSafe(offers: seq<Offer>)
    requires Book(offers) && offers != []
    ensures AverageRises(BookMarket(offers))
  {
    hide Take, Book;
    forall n | n > 0 ensures BookMarket(offers)(n) >= 0.0 { TakeNonNegative(offers, n as real); }
    forall x, y | 0 < x <= y
      ensures BookMarket(offers)(x) * y as real <= BookMarket(offers)(y) * x as real
    {
      BookAverageRises(offers, x as real, y as real);
    }
  }
}
