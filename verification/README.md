# Reserve, verified

Reserve lets people use Stellar without holding XLM: a service prices a request in the user's own
token, builds one transaction that carries the user's operations, a sponsorship sandwich for the
reserves they lock, and a payment that reimburses the service, and pays the network fee itself. No
database stands behind it. What holds it together is arithmetic, and two programs written
independently, a builder in Rust and a checker in TypeScript, that have to agree on one transaction.

This project models that pipeline and a Stellar ledger for it to run on, and proves:

- **Printer and parser agree.** `Agreement` says exactly which transactions the checker accepts for
  a payload; `RequestOnly` says what acceptance means to a user who trusts nothing in the payload;
  `Effects` and `SpendBound` say what an accepted transaction can do on any ledger.
- **The service pays for itself.** `Economy` and `Runs` follow the charge from plan to price to fee
  bump to ledger, for one quote and over every history.
- **Leases are exclusive,** and exactly when. `Lanes` is the lane pool as a protocol of interleaved
  steps and `LaneRuns` what it promises over every run; `ChannelPools` is the object, and each call to
  it, granted, refused or a release, is one run of the protocol.
- **Claims are judged as the ledger judges them.** `Predicates`, `Refusals`, `Calendar`, `Claims`;
  `OpenClaims` and `BootstrapFunding` say what a checked claim is worth when the transaction runs.
- **Exact arithmetic.** `Pricing`, `Signer`, `Route`, `Decimal`, `Names`.
- **Who gets in, and who gets through.** `Admission` says which envelopes are signed by everybody the
  network asks for, `NewAccounts` which bootstrap quotes succeed, exactly.
- **Nothing is vacuous.** `Walkthrough` takes a sponsored and a bootstrap quote through all of it.
- **The handlers.** `Service` puts the checks in order in front of the signature, and `Pipeline` says
  what each of them buys on the ledger.

`Prelude` and `Stellar` hold the shared data; `Ledger` is the environment: signatures, balances per account and
asset, trustlines with limits, claimable balances, sponsored reserves, at most one open sandwich an
account, sequence numbers, and a market that may answer every path payment differently. Its rules are
those of CAP-0015 (fee bumps), CAP-0023 (claimable balances) and CAP-0033 (sponsored reserves).
`dafny verify dfyconfig.toml` checks everything.

The Rust code's integers are modelled with their widths: saturating, checked, truncating (`as u32`,
`as i64`) and widening operations each as the source has them.

## What turned out otherwise

Where the code and what it says of itself part ways, the model follows the code.

- The checker compares balance ids case-sensitively in the transaction and case-insensitively in the
  quote (`sdk/ts/src/verify.ts:360` and `:139`): an upper-case id is quoted, built and then
  refused. `Agreement.VerifierComplete` has the exact condition.
- `BigInt("-0")` drops the sign, so amounts between minus one unit and zero pass for their opposites
  (`Agreement.NegativeDustPasses`, `Decimal.SameAmountRendered`). The ledger refuses such amounts, and
  `SpendBound` and `Effects` hold regardless.
- In bootstrap the checker accepts user operations without a source, which then act on the lane
  (`Effects.ImplicitSourceStillPasses`). It does not check the fee, the time bounds or the memo.
- A sponsored quote with reserves opens its sandwich with an operation sourced by the sponsor, who
  signs only the fee bump (`Signer.SponsoredCoveredExactlyWithoutSandwich`), so no ledger includes it
  (`Admission.SandwichNeverIncluded`).
- Evaluating a claim predicate is said to refuse what it cannot judge; a negation turns the refusal
  into consent, and an unreadable time stamp is consent by itself (`Predicates.NegationFailsOpen`).
  `Refusals.TrueIsRightExactlyWhen` has the exact condition.
- `apply_bps` wraps when the share no longer fits 64 bits. The margin never gets there; slippage above
  100 percent does, on large token amounts (`Pricing.SlippageSafeExactlyUpTo100Percent`).
- The float figure leaves out the sponsor's own subentries; the check is enough exactly when there are
  none (`Walkthrough.FloatEnoughExactlyWithoutOwnSubentries`).
- A request may claim one balance twice. Plan and claim check accept it, the check counts it double,
  and the transaction never runs through; included, it costs the sponsor its fee
  (`OpenClaims.RepeatedClaimsNeverRun`, `Walkthrough.RepeatedClaimCosts`).
- An asset text with a second colon is an asset to the planner, none to the builder, and its first two
  pieces to the SDK (`Names.SecondColon`).
- Every `create_account` but the user's own in bootstrap is planned and priced and can never run
  (`NewAccounts.CreateRunsOnlyForTheUser`), and so is one that comes after an operation of the account
  it creates (`Walkthrough.EarlyClaimCosts`).
- `release` knows a lease by its number only. A release that is late, or repeated, frees a successor
  with the same number (`LaneRuns.LateReleaseFreesSuccessor`, `LaneRuns.RepeatedReleaseFreesSuccessor`);
  `LaneRuns.ReleaseFreesAnotherExactlyWhen` has the condition. Two lanes of one address defeat the pool
  (`LaneRuns.ExclusiveExactlyWhenDistinct`).
- `price` is documented to leave a bootstrap transaction to be subsidised; the code charges every mode.

## Hypotheses

Stated in the lemmas that need them: base fee, base reserve and margin are 32-bit values, as the
source types them; base fee and base reserve are the same at quote and at apply; the base reserve is
positive; the sponsor is not the user. `Pipeline` adds that submit's readings are the ledger's: the
spendable figure, Horizon's records and the time; and a sponsor without unsponsored subentries.

## Model

| member | source | states |
|---|---|---|
| Agreement.VerifierCharacterised | sdk/ts/src/verify.ts:215-330 | For a payload the service can build and that answers the request, an arbitrary transaction is handed back for signing if and only if it is the built one up to a normal form (fee, time bounds and memo, which it does not look at, implicit or explicit user source, trust limit nobody named, order of a claimable balance's two claimants, sign of an amount below one unit), the request's balance ids are lower case and the fee's hops are readable |
| RequestOnly.AcceptedIsTheRequest | sdk/ts/src/verify.ts:215-427 | Soundness against any transaction and any payload whatever: an accepted transaction is, up to the normal form, what the builder makes of the user's own operations and fee token, and the builder makes something exactly when the request spells its amounts and assets the service's way |
| Agreement.VerifierSound | sdk/ts/src/verify.ts:206-244 | An accepted transaction is the one the payload builds, up to the normal form, for every buildable payload |
| Agreement.VerifierComplete | crates/core/src/build.rs:19-156 | The builder's own output for a quote that answers the request, sponsored or bootstrap, lane or no lane, is accepted if and only if ids are lower case and hops alphanumeric |
| Agreement.BuiltIsNormal | crates/core/src/build.rs:53-138 | What is built meets the normal form itself, carries 32-byte ids and only assets the SDK decodes |
| Agreement.BodyAgrees | sdk/ts/src/verify.ts:332-427 | Operation by operation: passing verifyOp is being the builder's body, letter case of ids aside |
| Agreement.FeeAgrees | sdk/ts/src/verify.ts:268-306 | Passing the fee checks is being the builder's fee operation, and its hops being readable |
| Agreement.PairIsUnordered | sdk/ts/src/verify.ts:408-427 | The claimants check passes exactly the two intended claimants, in either order |
| Agreement.NegativeDustPasses | sdk/ts/src/verify.ts:70-77 | A payment of minus five stroops passes for one of five: the sign of an amount under one unit is lost |
| Verify.VerifyTransaction | sdk/ts/src/verify.ts:215-244 | Accepts exactly the envelopes that a positional description of the transaction allows, and hands back that very transaction |
| Verify.VerifyClassic | sdk/ts/src/verify.ts:246-330 | Shifting and popping from both ends accepts exactly what the positional description allows |
| Verify.VerifyQuote | sdk/ts/src/verify.ts:170-204 | Passes exactly when the payload answers the request, as AnswersExactly spells out |
| Verify.AnswersExactly | sdk/ts/src/verify.ts:170-204 | What an answer is: the caller's network and sponsor where known, source, token, operations one for one, and a quoted maximum between zero and the number the caller's ceiling says |
| Verify.CeilingReads | sdk/ts/src/verify.ts:102-111 | The ceiling is read as n if and only if it is the whole number n up to 9007199254740991, or a text of decimal digits for n with white space around it |
| Verify.CeilingRoundTrip | sdk/ts/src/verify.ts:102-111 | A printed ceiling, white space around it or not, reads as the number printed |
| Verify.NeverAccepted | sdk/ts/src/verify.ts:206-236 | A fee bump, or a transaction with an asset code the SDK does not take, is never accepted |
| Verify.DecodesEvery | sdk/ts/src/verify.ts:206-214 | An operation decodes exactly when every asset it sends, pays out, trusts or goes through has a code the SDK takes |
| Agreement.SameOpExactly | sdk/ts/src/verify.ts:119-160 | Two operations the builder builds and the SDK decodes are the same to the checker if and only if they are built the same and leave the same limit open |
| Build.BuildInner | crates/core/src/build.rs:19-156 | The list that is pushed onto, one operation at a time, ends as begin, user operations, end, fee, or as the first error |
| Build.BuiltCarries | crates/core/src/build.rs:144-155 | A built transaction has the quote's source, inner fee, sequence, lower and upper time bound, and no memo |
| Build.BuildsExactly | crates/core/src/build.rs:19-156 | A quote is built exactly when every account text is a key, every asset and amount text readable, every route at most five hops, every id and limit readable, nobody leaves a balance for himself, and there are at most 100 operations |
| Build.TrustLimit | crates/core/src/build.rs:15-17 | A trustline whose limit nobody names is built with 9223372036854775807, and one with a limit with that |
| Build.BuiltHasShape | crates/core/src/build.rs:19-156 | Every position of a built list: which operation is there and which account it names |
| Build.Authority | crates/core/src/build.rs:30-138 | Exactly one begin, first, and one matching end, before the fee; every operation not sourced by the user is that begin, or a createAccount with nothing to give |
| Effects.AcceptedMeansBuilt | sdk/ts/src/verify.ts:206-244 | Where each operation has the builder's actor and limits are named: whenever an accepted transaction runs through on some ledger, the built one runs through to the very same ledger, and unless it hides a negative amount below one unit they stop at the same failure too |
| Effects.ActorsAgreeExactlyWhen | sdk/ts/src/verify.ts:322-329 | Every transaction accepted for a quote has the builder's actors, operation by operation, if and only if the user sources the transaction |
| Effects.SameSourceActors | sdk/ts/src/verify.ts:322-329 | With the user as the transaction's source, the normal form leaves no choice of actor |
| Effects.ImplicitSourceStillPasses | sdk/ts/src/verify.ts:324-327 | In bootstrap they need not: dropping the source of any user operation hands it to the lane and is still accepted |
| Effects.ExecFollows | sdk/ts/src/verify.ts:322-329 | Operation lists that agree step by step and actor by actor run to the same ledger, or stop alike |
| SpendBound.AcceptedSpendsOnlyWhatWasNamed | sdk/ts/src/verify.ts:188-203 | Under an adversarial payload, any ledger and any market, an accepted transaction leaves the user short, in each asset, by at most what the request's operations name plus, in the fee token, the number the user's ceiling says |
| SpendBound.AcceptedTotalCost | sdk/ts/src/verify.ts:215-244 | The same for the whole submission, with the network fee on top if the user's account pays it; the checker does not look at the fee |
| SpendBound.AcceptedSpend | sdk/ts/src/verify.ts:266-330 | Statically: per asset, the operations of a matching transaction name no more than the request and its ceiling do |
| SpendBound.ExecTakes | sdk/ts/src/verify.ts:246-330 | Whoever sources them and whatever the market answers, operations take at most what they name |
| Runs.SponsorLosesOnlyFailedFees | crates/core/src/pricing.rs:91-100 | Over every history of submissions and other happenings, the sponsor's spendable funds fall by no more than the fees of failed submissions |
| Economy.AppliedNeverCosts | crates/core/src/pricing.rs:91-100 | Every applied quote leaves balance minus locked reserves no lower than before, whatever the market did |
| Runs.SponsorNeverTheReason | crates/api/src/routes.rs:884-904 | Prefix solvency: if the float check holds of the sponsor's headroom, every prefix of the operations keeps the sponsor at or above its minimum balance, and none fails on the sponsor's account |
| Runs.LockingNeedsHeadroom | crates/api/src/routes.rs:884-904 | The converse: operations that ran with reserves locked had them, and the fee, covered by the headroom at the start plus what they sent the sponsor |
| Runs.FloatProtects | crates/api/src/state.rs:52-70 | The check as made, on spendable funds, is enough for every quote and ledger where the sponsor has no unsponsored subentries |
| Runs.FloatCheckExactly | crates/api/src/routes.rs:884-904 | At sizes that do not saturate the check is that spendable funds hold the reserves and one base fee for every operation and one more |
| Walkthrough.FloatEnoughExactlyWithoutOwnSubentries | crates/api/src/state.rs:52-70 | The check protects the sponsor on every quote a ledger includes if and only if the sponsor has no unsponsored subentries of its own, which the figure leaves out |
| Walkthrough.FloatPassesQuoteFails | crates/api/src/routes.rs:884-904 | The states that show it, one for each number of such subentries: a bootstrap quote signed by everybody passes the check, is included, stops for want of the sponsor's reserve, and the fee is gone |
| Runs.AtMostOnce | crates/api/src/routes.rs:928-944 | Of two submissions with one source and sequence, in any history, at most one is included |
| Runs.QuoteCollectedOnce | crates/api/src/routes.rs:928-944 | However often a quote is submitted, it is included at most once |
| Runs.FailureCostsTheFee | crates/core/src/build.rs:171-173 | A failed submission changes no balance, line or claimable balance except the fee payer's by the fee |
| Economy.FeeStepExact | crates/core/src/build.rs:174-200 | The fee operation credits the sponsor exactly the charge, takes at most sendMax of the fee token from the payer, and moves nothing else |
| Economy.BuiltLength | crates/core/src/plan.rs:198-203 | The built list is as long as the plan priced, sandwich and fee included, when the base reserve is positive |
| Economy.BuiltUnits | crates/core/src/plan.rs:192-196 | The built list locks exactly the base reserves the plan counted, all before the fee arrives |
| Economy.FeeBounded | crates/api/src/routes.rs:905-911 | The sponsor pays every fee, never more than one base fee per operation and one |
| Economy.ChargeCoversBid | crates/core/src/pricing.rs:91-100 | The charge covers the most the network can take as a fee plus the reserves locked |
| SponsorEffects.ExecSpares | crates/core/src/build.rs:30-138 | A list sourced by others takes on at most its reserve units and nothing else from the sponsor, and fails on the sponsor only if its headroom was short at the start |
| SponsorEffects.StepSpares | crates/core/src/build.rs:30-138 | The same for one operation, in every ledger and market |
| Pricing.SlippageSafeExactlyUpTo100Percent | crates/core/src/pricing.rs:116-124 | Over every answer of path finding and every charge, slippage leaves the token amount no lower if and only if it is at most 100 percent; above, the cast wraps on some amount |
| Pricing.MarginFits | crates/core/src/pricing.rs:90-97 | No 32-bit margin makes the cast wrap at the sizes a plan can cost |
| Pricing.ApplyBpsRaises | crates/core/src/pricing.rs:67-74 | As long as the share fits 64 bits, the result is the exact sum rounded up, stopping at the largest 64-bit number |
| Pricing.ChargeCoversCost | crates/core/src/pricing.rs:90-100 | At any margin the charge is at least the fee of the list and its bump plus the reserves, and nothing overflows |
| Pricing.ChargeIsLeast | crates/core/src/pricing.rs:87-100 | The charge is the least whole number that holds the base fee for each operation, two for a sandwich, the fee payment and the bump, plus the reserves, plus the margin on both, and is not below the floor on top of the reserves |
| Pricing.ApplyBpsIsLeast | crates/core/src/pricing.rs:67-74 | Where nothing saturates the result is the least whole number holding amount and share |
| Pricing.ScaledIsLeast | crates/core/src/pricing.rs:181-185 | The scaled amount is the least that stands to the XLM bought as the reference cost to the larger of that and one lumen |
| Pricing.UnpricedExactly | crates/core/src/pricing.rs:148-180 | There is no route exactly when nothing readable is offered, or something for nothing |
| Pricing.Cheapest | crates/core/src/pricing.rs:188-193 | The chosen record is readable, cheaper than every readable one before it and no dearer than any after; none is chosen only if none is readable |
| Pricing.ScaledIsSafe | crates/core/src/pricing.rs:143-185 | For any market whose average price does not fall with size, the scaled amount is at least the true cost of the smaller purchase and at most the reference cost |
| Pricing.BookAverageRises | crates/core/src/pricing.rs:143-145 | A book of offers taken from the cheapest up is such a market |
| Pricing.SortedBookIsSafe | crates/core/src/pricing.rs:143-185 | So the scaling is safe for every sorted book |
| Route.UnmovedBookPasses | crates/core/src/path.rs:39-83 | Whatever Price answered for a plan: if no route's market has moved since, the quoted hops still cover the charge inside the quoted sendMax and the check passes |
| Route.PricedFromMarket | crates/core/src/pricing.rs:116-185 | What a quote in another asset costs: the cheapest way at a lumen or more, its cost scaled to the charge and rounded up, the slippage on top and rounded up; never below what the charge itself costs that way |
| Route.PricedInLumens | crates/core/src/pricing.rs:102-114 | A fee in lumens carries the charge, no route, and the least maximum that holds charge and slippage |
| Route.RecordMatchesExactly | crates/core/src/path.rs:14-31 | A route Horizon offers is the quoted one if and only if its complete hops are the same assets on the ledger, one for one and in order |
| Route.MatchIsFirstAlong | crates/core/src/path.rs:65-70 | The record taken is the first along those assets, and there is none if and only if none goes along them |
| Route.EnsuredExactly | crates/core/src/path.rs:39-83 | The check passes if and only if the fee is in lumens, or the first route along the quoted assets asks no more than sendMax; a route gone or dearer has moved, an unreadable amount is another error |
| Pipeline.QuoteStaysGood | crates/core/src/path.rs:39-83 | From handler to handler: a quote priced over some ways carries the cheapest one's price, and passes the route check when the ways are as they were |
| Pipeline.ChargedExactly | crates/core/src/pricing.rs:87-100 | The charge a quote carries is the least that holds fees, reserves, margin and floor for the request it answers |
| Route.FindsItself | crates/core/src/path.rs:14-35 | Among ways through different assets of the ledger, the first record along a way's assets is its own |
| Plans.PlannedExactlyWhen | crates/core/src/plan.rs:92-186 | A request is planned if and only if it has 1 to 20 operations, each with keys for accounts, readable assets, at most five hops, an id of 72 hexadecimal digits with eight zeros in front, no native trustline, and, for a new account, claims something and leaves nothing |
| Plans.RefusalExactly | crates/core/src/plan.rs:108-155 | Why a request is refused: the first operation that is not well formed, for the first of its texts that cannot be read; and only then for what a new account may not ask |
| Plans.NewPlan | crates/core/src/plan.rs:92-186 | One pass with running counters gives the counts of each kind, or the first error in request order |
| Plans.PlanLocksItsUnits | crates/core/src/plan.rs:188-196 | Reserves are two units per account, one per trustline, two per claimable balance, and sponsorship is needed exactly when there is one |
| Signer.BumpFeeIsLeast | crates/signer/src/lib.rs:103-112 | A fee satisfies CAP-0015's two conditions, base rate and inner rate, if and only if it is at least the computed one |
| Signer.BumpFeeOfQuote | crates/signer/src/lib.rs:103-112 | For a quote's inner fee at an unchanged base fee it is one base fee per operation and one, even where the 32-bit product wrapped |
| Signer.BumpFeeFits | crates/signer/src/lib.rs:103-112 | There is no fee exactly when the inner fee with one operation more, at the inner rate or the base fee, passes 64 bits |
| Signer.BootstrapCovered | crates/api/src/routes.rs:1029-1068 | For every bootstrap quote, lane or sponsor, the envelope is signed by every account sourcing the transaction or an operation, over an unchanged inner transaction |
| Signer.SponsoredCoveredExactlyWithoutSandwich | crates/api/src/routes.rs:905-911 | With the user's signatures inside, a sponsored quote is covered if and only if it opens no sandwich: the begin is sourced by the sponsor, who signs only the outside |
| Admission.AuthorisedExactlyWhen | crates/api/src/routes.rs:905-911 | What submit sends is authorised if and only if the user has signed and, in sponsored mode, no sandwich is opened that the sponsor has not signed inside |
| Admission.SandwichNeverIncluded | crates/api/src/routes.rs:905-911 | So a sponsored quote with reserves, without the sponsor's signature inside, is refused on every ledger |
| Admission.BootstrapIsAuthorised | crates/api/src/routes.rs:1029-1068 | A bootstrap quote the user has signed is never refused for a signature |
| Signer.CoSign | crates/signer/src/lib.rs:145-166 | The transaction is unchanged, earlier signatures are kept in order, exactly one is added and it is this key's over that transaction; refused if and only if twenty are there already |
| Signer.SignBootstrap | crates/api/src/routes.rs:1029-1068 | Refused exactly when the lane is unknown, signatures have no room or the bump's fee does not fit, with that error; otherwise the transaction is unchanged, the lane's signature if it is not the sponsor's and then the sponsor's follow the user's, and such a lane's transaction, and no other, is wrapped in a bump the sponsor pays and signs at the least fee |
| LaneRuns.ExclusiveExactlyWhenDistinct | crates/api/src/channels.rs:46-111 | Every run of a pool, in every interleaving of lease steps, releases, abandoned calls and clock ticks, keeps outstanding leases on different accounts if and only if the lanes have addresses of their own |
| LaneRuns.HeldUnlessFreedByAnother | crates/api/src/channels.rs:75-111 | As the holders see it: two unexpired leases that neither holder released are on different accounts, unless the older was freed by the release of a still older one with the same account and number |
| LaneRuns.ReleaseFreesAnotherExactlyWhen | crates/api/src/channels.rs:103-111 | Over every run, a release frees another holder's lease if and only if its own is no longer live and the live one on its lane has the same number |
| LaneRuns.MovedChainProtects | crates/api/src/channels.rs:87-111 | That needs the chain to stand still: once the account's number has reached a grant's with the lane idle, every later grant there has a greater number and no release of the old one ever frees it |
| LaneRuns.LeasesExclusive | crates/api/src/channels.rs:75-101 | On lanes with addresses of their own, two leases neither expired nor released never name the same account |
| LaneRuns.OverwrittenOnlyWhenDead | crates/api/src/channels.rs:80-98 | A lease that was written over was past its deadline by the true clock, although compared with one read before the lock |
| LaneRuns.SequencesNeverFall | crates/api/src/channels.rs:87-98 | Sequences granted on a lane never decrease while the chain's do not |
| Lanes.StepKeepsInv | crates/api/src/channels.rs:75-111 | Every step keeps locks, clocks, slots, deadlines, sequences and releases consistent |
| Lanes.RunKeepsInv | crates/api/src/channels.rs:75-111 | So does every run |
| LaneRuns.SharedAddressCollides | crates/api/src/channels.rs:46-56 | In every pool with one account on two lanes, some run hands out the same account and number twice, both leases live |
| LaneRuns.LateReleaseFreesSuccessor | crates/api/src/channels.rs:103-111 | A release that comes after its lease expired frees a successor with the same number, and a third lease joins it on one lane and number |
| LaneRuns.RepeatedReleaseFreesSuccessor | crates/api/src/routes.rs:926-944 | With the clock standing still: releasing a grant a second time, as submitting its quote twice does, frees the next holder's lease |
| ChannelPools.ChannelPool.constructor | crates/api/src/channels.rs:46-56 | Lanes in configured order, each object its own, all free |
| ChannelPools.ChannelPool.Lease | crates/api/src/channels.rs:75-101 | Leases the first lane that is free by the clock read on entry, at the chain's next sequence, and changes no other slot; errors change none |
| ChannelPools.ChannelPool.Release | crates/api/src/channels.rs:103-111 | Clears the slot of the first lane at that address, if the lease in it has that sequence, and nothing else |
| ChannelPools.LeasedExactly | crates/api/src/channels.rs:80-101 | Who is leased, and why nobody is: the first lane without an unexpired lease decides, at its account's next number, or as missing, or as Horizon failing |
| ChannelPools.LeasedAndReleased | crates/api/src/channels.rs:75-111 | On lanes with addresses of their own a lease followed by its release leaves that lane free and every other as it was |
| ChannelPools.LeaseIsARun | crates/api/src/channels.rs:75-101 | What the object does for a lease is what an undisturbed call does in the interleaved system, so its effects are among those proved safe |
| ChannelPools.RefusalIsARun | crates/api/src/channels.rs:82-101 | So is a refusal: every lane busy, or the first free one with an account that cannot be read |
| ChannelPools.ReleaseIsARun | crates/api/src/channels.rs:103-111 | And so is a release, whose number and lane are those of an earlier grant |
| LaneRuns.Scans | crates/api/src/channels.rs:81-85 | A lone call walks past busy lanes changing nothing |
| LaneRuns.LeasesFirstFree | crates/api/src/channels.rs:80-98 | It then leases the first lane that is free, at the chain's next number |
| Predicates.EvaluatesCap23 | crates/horizon/src/predicate.rs:44-89 | On every tree within the depth cap, in any spelling Horizon uses, with a known creation time, the answer is CAP-0023's |
| Predicates.FifthLevelIsRefused | crates/horizon/src/predicate.rs:44-49 | A fifth level is refused whatever is there: five negations around anything hold |
| Predicates.SaidOutright | crates/horizon/src/predicate.rs:68-72 | A leaf that says yes or no outright is answered so, whatever stamps it carries |
| Predicates.DeadlineDecides | crates/horizon/src/predicate.rs:71-88 | In a leaf the epoch seconds decide if they are a 64-bit number, else the stamp if it is one, else the seconds from a known creation, saturating |
| Refusals.TrueIsRightExactlyWhen | crates/horizon/src/predicate.rs:35-89 | At a given time, answering true is right under every meaning of the parts that could not be judged (too deep, wrong arity, unreadable, unknown creation) if and only if three-valued evaluation says yes or the answer is not true |
| Refusals.RightMeansRight | crates/horizon/src/predicate.rs:35-89 | Where that condition holds, true is never wrong about the tree itself |
| Refusals.SomeGuess | crates/horizon/src/predicate.rs:44-89 | An answer the three-valued verdict does not exclude is right under some meaning of the refused parts |
| Refusals.GuardedIsDecided | crates/horizon/src/predicate.rs:44-89 | A guard that looks at no clock, only at where refusals stand among the negations, ensures the condition at every time |
| Predicates.NeverClaimsTooMuch | crates/horizon/src/predicate.rs:35-89 | Fail-closed: true is never wrong on trees whose refusals are guarded, in particular on negation-free trees with readable leaves of any depth and arity |
| Predicates.GuardedIsOneSided | crates/horizon/src/predicate.rs:44-89 | Under an even number of negations the answer never says too much, under an odd number never too little, wherever refusals are guarded accordingly |
| Predicates.NegationFailsOpen | crates/horizon/src/predicate.rs:64-88 | Three trees on which the evaluator says yes and the predicate says no: past the cap under negations, unknown creation time under one, an unreadable stamp |
| Predicates.PairClaimable | crates/core/src/build.rs:229-262 | Of a claimable balance's pair the destination can claim at any time, the sender exactly from creation plus seven days, nobody else ever |
| OpenClaims.AnswerIsTheLedgers | crates/horizon/src/types.rs:194-203 | An account passes claimable_by on Horizon's record if and only if the ledger lets it claim the entry |
| OpenClaims.PairAnswered | crates/horizon/src/types.rs:194-203 | On a record showing the pair, claimable_by lets the destination claim at any time, the sender exactly from creation plus seven days, nobody else ever |
| Calendar.SuccessorIsOneMore | crates/horizon/src/predicate.rs:113-127 | The next Gregorian day is exactly one day number more, over all years and leap rules |
| Calendar.CountsDays | crates/horizon/src/predicate.rs:113-127 | Day n after 1970-01-01 has day number n |
| Calendar.OrderPreserved | crates/horizon/src/predicate.rs:113-127 | Dates are in order if and only if their day numbers are |
| Calendar.StampsOrdered | crates/horizon/src/predicate.rs:113-127 | Time stamps are in order if and only if date and time of day are, leap seconds included, except that 23:59:60 is the next midnight |
| Calendar.StampReads | crates/horizon/src/predicate.rs:93-111 | Every date and time of years 0 to 9999, written as RFC 3339 section 5.6 has it, leap seconds included, with any fraction and in either spelling of UTC, reads as its day number in seconds plus the time of day |
| Calendar.SignsRead | crates/horizon/src/predicate.rs:93-111 | Which signs the number readers take: plus everywhere, minus where the type has one |
| Calendar.IntegersExactly | crates/horizon/src/predicate.rs:71-111 | The number readers yield v if and only if the text is digits for it, bare or behind a sign, and the type holds it |
| Claimants.PairSorted | crates/core/src/build.rs:231-243 | The pair is strictly sorted by account id and consists of the two intended claimants |
| Claimants.SortedPairUnique | sdk/ts/src/claimable.ts:16-20 | It is the only sorted list of those two, so the two builders agree |
| Claimants.CompareAccount | sdk/ts/src/claimable.ts:26-33 | The byte loop decides the order of account ids: negative, positive or zero as less, greater or equal |
| Claimants.LessExactly | sdk/ts/src/claimable.ts:26-33 | One key comes before another exactly at the first byte where they differ |
| Claimants.ClaimableClaimants | crates/core/src/build.rs:231-243 | Sorting the pair by that order gives the sorted pair |
| Claims.EnsureClaims | crates/core/src/claim.rs:26-80 | Passes if and only if every claim exists, is open to the source and, where it counts, readable, and the arriving fee token is there when needed and suffices; fails because of Horizon if and only if the first claim in the way could not be asked about |
| Claims.SufficesExactly | crates/core/src/claim.rs:26-88 | What is asked: every claim exists and is open to the source; a sponsored quote asks no more; in bootstrap the claims in the fee token are readable and together hold sendMax, and where there are claims some are in it |
| OpenClaims.ClaimsStopExactlyWhenRepeated | crates/core/src/claim.rs:34-66 | What the check buys: on the ledger and at the time it was made, unless something else stops the operations, they stop at a claim if and only if an id is claimed twice |
| OpenClaims.ClaimStopsExactlyWhenRepeated | crates/core/src/claim.rs:34-66 | Claim by claim: everything before it having run, a claim is not there or not allowed if and only if an earlier one had the same id |
| OpenClaims.DistinctClaimsNeverStop | crates/core/src/claim.rs:34-66 | With distinct ids no prefix of the checked transaction stops at a claim |
| OpenClaims.RepeatedClaimsNeverRun | crates/core/src/plan.rs:141-144 | Whatever was checked and wherever the balances come from, new ones having ids of their own: operations that claim one id twice never run through |
| NewAccounts.CreateRunsOnlyForTheUser | crates/core/src/build.rs:53-66 | On every ledger with nothing open: if the operations up to a create_account run, the quote is a bootstrap one and the account the user's own, so a sponsored create_account, or one for anybody else, never runs |
| NewAccounts.FrontRunsExactlyWhen | crates/core/src/build.rs:30-138 | For a new account that creates, trusts and claims, on the ledger the checks were made against: the operations before the fee run if and only if its own creation comes first and only there, lines can be had and are open before what they are for, no balance is claimed twice and nothing overflows |
| NewAccounts.SucceedsExactlyWhen | crates/api/src/routes.rs:817-952 | Such a quote, sent, included and with the market still inside sendMax, succeeds if and only if its operations fit in that way; otherwise it fails at the sponsor's cost |
| NewAccounts.CostIsShown | crates/api/src/routes.rs:853-872 | The market is inside sendMax if it charges what the route check was told |
| Walkthrough.NewAccountGoesThrough | crates/core/src/build.rs:353-397 | One that fits and succeeds |
| Walkthrough.EarlyClaimCosts | crates/core/src/plan.rs:92-186 | One that does not: claiming before creating is planned, priced, checked, signed and sent, and fails at the sponsor's cost |
| Walkthrough.RepeatedClaimCosts | crates/core/src/plan.rs:141-144 | The input that shows it: a balance claimed twice is planned, counted double by the check, built and signed, and fails at the sponsor's cost |
| BootstrapFunding.NewAccountCanPay | crates/core/src/claim.rs:34-80 | If the claims were checked against the ledger a bootstrap quote runs on, and the operations before the fee run, the new account holds at least sendMax of the fee token when the fee is due |
| BootstrapFunding.ClaimsArrive | crates/core/src/claim.rs:34-78 | After each operation that has run, the new account holds at least what its claims so far were counted for |
| NewAccounts.ArrivingIsHeld | crates/core/src/claim.rs:34-78 | The total the check counts is what the claims hold, one by one, of the fee token |
| Decimal.ParseAmountExact | crates/horizon/src/types.rs:216-235 | The reader yields v if and only if the text is digits with at most seven decimals whose exact value is v, within 64 bits |
| Decimal.FormatParseRoundTrip | crates/horizon/src/types.rs:237-242 | Reading back what was printed gives the same number, for every non-negative 64-bit amount; negative ones are refused |
| Decimal.AmountReadersAgree | sdk/ts/src/verify.ts:49-60 | The SDK's amount reader agrees with the service's on every text both read |
| Decimal.ToStroopsAgreesWithParse | sdk/ts/src/verify.ts:70-77 | So does its comparison's reader, on every text the service reads |
| Decimal.RenderedReadsAsShown | sdk/ts/src/verify.ts:63-77 | What the comparison reads of any rendered amount, negative ones included |
| Decimal.SameAmountRendered | sdk/ts/src/verify.ts:63-77 | Two rendered amounts compare equal if and only if they are equal, or opposite and below one unit |
| Decimal.AmountToStroopsExactly | sdk/ts/src/verify.ts:49-60 | The SDK's amount reader yields v if and only if the text is digits, or digits, a point and digits, with white space around, and v what they say to seven decimals |
| Decimal.ToStroopsOfDecimal | sdk/ts/src/verify.ts:70-77 | The comparison's reader takes digits, a point and digits to their value in stroops, dropping what is past seven decimals |
| Decimal.OtherSpellings | sdk/ts/src/verify.ts:70-77 | BigInt's other spellings: nothing is zero, and a sign counts |
| Decimal.RadixSpelling | sdk/ts/src/verify.ts:70-77 | Behind 0x, 0o or 0b, in either letter case, a text is read in that radix |
| Decimal.UnreadableNeverSame | sdk/ts/src/verify.ts:70-77 | Amounts nobody can read are never the same |
| Names.AssetReadersAgree | crates/core/src/asset.rs:10-48 | Service and SDK read the same asset from every text both read |
| Names.ReadableByBoth | sdk/ts/src/verify.ts:79-84 | Of the texts the service reads, the SDK reads exactly those with an alphanumeric code |
| Names.SdkReadsExactly | sdk/ts/src/verify.ts:79-84 | What the SDK reads as an asset: lumens, or one to twelve letters and digits before a colon and a key up to the next one |
| Names.SecondColon | sdk/ts/src/verify.ts:79-84 | With a second colon a text is an asset to the planner, no asset to the builder, and its first two pieces to the SDK |
| Names.ReadsExactlyCanonical | crates/core/src/asset.rs:10-48 | The service reads an asset of the ledger from its canonical text and from no other |
| Names.RenderParsed | crates/core/src/build.rs:158-169 | A parsed balance id prints as its text in lower case |
| Names.ParseRendered | crates/core/src/build.rs:158-169 | A printed balance id parses to itself |
| Names.SameBalanceId | crates/core/src/build.rs:158-169 | Two texts name one balance if and only if they differ in letter case only |
| Names.BalanceIdsExactly | crates/core/src/build.rs:158-169 | A text is a balance id if and only if it is 72 hexadecimal digits of which the first eight are zeros |
| Service.Handlers.Quote | crates/api/src/routes.rs:648-760 | A quote is given exactly when it can be priced, its claims suffice and a sequence is to be had; it carries that price, the time bounds 0 and now plus 180 seconds and the ledger bound; a lane is taken only by a bootstrap quote that is given; the first thing wrong, in the handler's order, is what the client is told |
| Service.Handlers.Source | crates/api/src/routes.rs:698-720 | The user's own next number, or the first free lane and its next number; a refusal says which could not be had and leaves every lane as it was |
| Service.Handlers.Submit | crates/api/src/routes.rs:817-952 | Something is signed and sent exactly when claims, route, gate and float all pass; check by check, what the client is told and whether the lane is given back: by claims that do not stand, a moved route, an expired quote, short funds and a quote sent, and by nothing the user can put right |
| Service.Handlers.ReleaseBootstrap | crates/api/src/routes.rs:1070-1074 | Releases the quote's lane in bootstrap, touches nothing otherwise |
| Service.GateIsExact | crates/core/src/validate.rs:18-46 | The gate passes exactly the rebuilt transaction, fresh, plain and signed by somebody |
| Service.GateErrors | crates/core/src/validate.rs:18-46 | An old quote is refused as expired before anything else is looked at; a fresh one as a mismatch, or for what is written in the quote |
| Service.RouteErrors | crates/core/src/path.rs:39-83 | The route check fails as moved, or for a text it cannot read |
| Service.FreedExactly | crates/api/src/routes.rs:1070-1074 | Lane by lane, what giving back does: in bootstrap the first lane at the quote's source loses its lease if it has the quote's number, and nothing else changes |
| Walkthrough.HypothesesMeet | crates/core/src/build.rs:408-422 | A sponsored payment from plan to ledger: one quote is issued, built, accepted by the checker, signed by everybody it has to be, covered by the float and applied, so the hypotheses of the main results hold together |
| Walkthrough.NewHypothesesMeet | crates/core/src/build.rs:353-397 | The same for a new account that claims its funding and pays out of it |
| Pipeline.WhatTheChecksBuy | crates/api/src/routes.rs:817-952 | An issued quote Submit sent, included by the ledger its checks looked at: applied it costs the sponsor nothing, failed the fee; no operation fails because of the sponsor; no claim fails, ids being distinct; a new account holds sendMax when the fee is due; the fee payment does not fail on its route if the market charges what path finding said |
| Walkthrough.PipelineHypothesesMeet | crates/api/src/routes.rs:817-952 | A bootstrap quote that Submit sends, on a ledger it has seen that includes it: the hypotheses of the pipeline hold together |
| Pipeline.SponsorHolds | crates/api/src/routes.rs:884-904 | What the float check buys, for every prefix of the operations |
| Pipeline.ClaimsHold | crates/api/src/routes.rs:832-851 | What the claim check buys |
| Pipeline.RouteHolds | crates/api/src/routes.rs:853-872 | What the route check buys |
| Pipeline.InTimeExactly | crates/api/src/routes.rs:722-740 | The transaction of a quote given at nowSecs is in time for exactly the ledgers closing from 0 to nowSecs plus 180 |
| Pipeline.LateIsRejected | crates/api/src/routes.rs:722-740 | After that no ledger includes it, whatever was signed |

## Left out

- HTTP, configuration, metrics, rate limits, API keys, the login challenge, static pages: plumbing.
- Horizon and the network: answers are parameters; that a reading can lag behind the chain is not modelled.
- Ed25519, SHA-256, HMAC, strkey and base64url: a signature is a value naming its key and what it covers, an account text is a key's strkey or unreadable, and sealing and opening quotes is left out.
- The XDR codec: transactions are compared as values; zero padding of asset codes and codes or texts that are not ASCII are not modelled. `RequestOnly` takes the bounds XDR puts on operations, hops and hashes as given.
- Muxed accounts.
- Payload numbers in JavaScript that are not whole (fractions, NaN) or arrive as other types.
- Overflow panics of a debug build: arithmetic is that of a release build.
- The curated token table and the allowlist: slippage and permission are parameters.
- Order-book matching: the ledger's market is an arbitrary answer per operation and counterparties' balances are not followed; `Pricing` assumes a rising average price, and proves it of a sorted book.
- Of the ledger: authorization flags, liabilities, signing thresholds, account merges, pool shares and operations the service never builds. A signature counts when it is of the account's own key.
- That the network rejects unsorted claimants: the ledger keeps them as a multiset, and no result leans on it.
- The quote's time bound against the lease's deadline: the clock is read twice, so results speak of the deadline.
- ChannelPools.ChannelPool.Lease: one call of the object runs undisturbed; every interleaving is in `Lanes` and `LaneRuns`.
- ChannelPools.ChannelPool.Release: the same.
- Predicates.NeverClaimsTooMuch: the guard is sufficient, not necessary; the condition that is both is Refusals.TrueIsRightExactlyWhen.
- Effects.AcceptedMeansBuilt: a trustline whose limit the request leaves open may be built and accepted with different limits, and then behave differently; operations whose actor differs are the subject of Effects.ActorsAgreeExactlyWhen.
- Pipeline.WhatTheChecksBuy: the ledger may have moved between the checks and inclusion, which the source says it cannot close either; then only the sponsor clauses of `Economy` and `Runs` remain.
- Economy.AppliedNeverCosts: speaks of the quotes the service issued, as `Issued` has it; other transactions of the sponsor are `Elsewhere` in `Runs`.
- The end-to-end driver, the example scripts and the SDK's client beyond its check of a built transaction.
