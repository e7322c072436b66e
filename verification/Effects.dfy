// The normal form is about wording only: what an accepted transaction does is what the built one does.
module Effects {
  import opened Prelude
  import opened Stellar
  import opened Names
  import opened Plans
  import opened Build
  import opened Verify
  import opened Agreement
  import opened Ledger

  /** If `got` succeeds, or no amount in it is negative, `built` has the very same outcome. */
  ghost predicate Follows(got: Outcome, built: Outcome, signed: bool) { got.Ok? || signed ==> built == got }

  /** No amount of the operation is one whose sign the checker loses. */
  predicate KeepsSigns(body: OpBody) { UnsignBody(body) == body }

  lemma ClaimantsUnordered(a: seq<Claimant>, b: seq<Claimant>)
    requires multiset(a) == multiset(b)
    ensures |a| == |b| && Destinations(a) == Destinations(b)
  {
    assert |multiset(a)| == |a| && |multiset(b)| == |b|;
    forall c ensures c in a <==> c in b {
      assert c in a <==> c in multiset(a);
      assert c in b <==> c in multiset(b);
    }
  }

  lemma LeaveFollows(l: State, src: AccountId, asset: Asset, n: int, a: seq<Claimant>, b: seq<Claimant>, env: Env,
                     k: nat)
    requires multiset(a) == multiset(b)
    ensures DoLeave(l, src, asset, n, a, env, k) == DoLeave(l, src, asset, n, b, env, k)
  {
    hide Debit, Ledger.Sponsor, Destinations;
    ClaimantsUnordered(a, b);
    assert a == [] <==> b == [];
  }

  /** The order of claimants and the sign of refused amounts make no difference to a step that succeeds. */
  lemma StepFollows(l: State, got: OpBody, built: OpBody, op: UserOp, src: AccountId, env: Env, k: nat)
    requires SameBody(got, built, op) && (op.Trust? ==> op.limit.Some?)
    ensures Follows(Step(l, got, src, env, k), Step(l, built, src, env, k), KeepsSigns(got))
  {
    hide DoCreate, DoClaim, Debit, Deposit, Ledger.Cost, Proceeds, AddSubentry, RemoveSubentry;
    if got.CreateClaimable? && built.CreateClaimable? && got.amount > 0 {
      LeaveFollows(l, src, got.asset, got.amount, got.claimants, built.claimants, env, k);
    }
  }

  lemma FeeStepFollows(l: State, got: Operation, built: Operation, src: AccountId, env: Env, k: nat)
    requires SameFee(got, built) && built.body.PathStrictReceive?
    requires built.body.sendMax >= 0 && built.body.destAmount >= 0
    ensures Follows(Step(l, got.body, src, env, k), Step(l, built.body, src, env, k), KeepsSigns(got.body))
  {
    hide Debit, Deposit, Ledger.Cost;
  }

  /** Each operation is done by the account the builder meant. */
  ghost predicate SameActors(tx: Transaction, built: Transaction) {
    |tx.ops| == |built.ops|
    && forall i :: 0 <= i < |tx.ops| ==>
         EffectiveSource(tx.ops[i], tx.source) == EffectiveSource(built.ops[i], built.source)
  }

  lemma {:induction false} ExecFollows(l: State, got: seq<Operation>, built: seq<Operation>, a: AccountId, b: AccountId,
                                       env: Env, signed: bool)
    requires |got| == |built|
    requires forall i :: 0 <= i < |got| ==> EffectiveSource(got[i], a) == EffectiveSource(built[i], b)
    requires forall i, l, src, k :: 0 <= i < |got| ==>
               Follows(Step(l, got[i].body, src, env, k), Step(l, built[i].body, src, env, k), signed)
    ensures Follows(Exec(l, got, a, env), Exec(l, built, b, env), signed)
  {
    hide Step;
    if got == [] {
    } else {
      var n := |got| - 1;
      assert forall i :: 0 <= i < n ==> got[..n][i] == got[i] && built[..n][i] == built[i];
      ExecFollows(l, got[..n], built[..n], a, b, env, signed);
      var r := Exec(l, got[..n], a, env);
      if r.Ok? {
        assert Follows(Step(r.value, got[n].body, EffectiveSource(got[n], a), env, n),
                       Step(r.value, built[n].body, EffectiveSource(got[n], a), env, n), signed);
      }
    }
  }

  predicate LimitsNamed(ops: seq<UserOp>) { forall i :: 0 <= i < |ops| ==> ops[i].Trust? ==> ops[i].limit.Some? }

  lemma OpFollows(tx: Transaction, q: Quote, i: nat, l: State, src: AccountId, env: Env, k: nat)
    requires Built(q).Ok? && IsBuiltUpToNormalForm(tx, q) && LimitsNamed(q.ops)
    requires q.chargeStroops >= 0 && q.sendMaxStroops >= 0 && i < |tx.ops|
    ensures Follows(Step(l, tx.ops[i].body, src, env, k), Step(l, Built(q).value.ops[i].body, src, env, k),
                    KeepsSigns(tx.ops[i].body))
  {
    hide Step, SameBody, SameFee, Built, BeginOp, EndOp, UserOperation;
    var built := Built(q).value;
    if q.First() <= i < q.First() + |q.ops| {
      var j := i - q.First();
      assert SameUserOp(tx.ops[q.First() + j], built.ops[q.First() + j], q.ops[j], q.source.id);
      StepFollows(l, tx.ops[i].body, built.ops[i].body, q.ops[j], src, env, k);
    } else if i == |tx.ops| - 1 {
      FeeFields(q);
      FeeStepFollows(l, tx.ops[i], built.ops[i], src, env, k);
    }
  }

  predicate AllKeepSigns(tx: Transaction) { forall i :: 0 <= i < |tx.ops| ==> KeepsSigns(tx.ops[i].body) }

  /**
   * Same meaning, in every ledger and every market, as long as the trustlines asked for name their
   * limits and each operation has the same actor. If an accepted transaction runs through, the one the
   * service builds for that payload would have run through to the very same ledger; and unless it hides
   * a negative amount of less than a unit, the two stop at the same failure as well.
   */
  lemma AcceptedMeansBuilt(tx: Transaction, signatures: seq<Signature>, q: Quote, r: Request, e: Expectations,
                           l: State, env: Env)
    requires Accepts(Plain(TxEnvelope(tx, signatures)), q, r, e) && Built(q).Ok? && AllWellSized(tx)
    requires q.chargeStroops >= 0 && LimitsNamed(q.ops) && SameActors(tx, Built(q).value)
    ensures Follows(Exec(l, tx.ops, tx.source, env), Exec(l, Built(q).value.ops, Built(q).value.source, env),
                    AllKeepSigns(tx))
  {
    hide Step, Exec, Built, IsBuiltUpToNormalForm, Matches, SdkReads, LimitsNamed, AllWellSized;
    VerifierSound(tx, signatures, q, r, e);
    SendMaxNonNegative(q, r, e);
    var built := Built(q).value;
    forall i, l, src, k | 0 <= i < |tx.ops|
      ensures Follows(Step(l, tx.ops[i].body, src, env, k), Step(l, built.ops[i].body, src, env, k), AllKeepSigns(tx))
    {
      OpFollows(tx, q, i, l, src, env, k);
    }
    ExecFollows(l, tx.ops, built.ops, tx.source, built.source, env, AllKeepSigns(tx));
  }

  lemma SendMaxNonNegative(q: Quote, r: Request, e: Expectations)
    requires QuoteAnswers(q, r, e)
    ensures q.sendMaxStroops >= 0
  {
  }

  /** When the user sources the transaction, an implicit source and the user are one and the same. */
  lemma SameSourceActors(tx: Transaction, q: Quote)
    requires Built(q).Ok? && IsBuiltUpToNormalForm(tx, q) && q.TxSource() == q.source
    ensures SameActors(tx, Built(q).value)
  {
    hide Built, SameBody, BodyOf, FeeOp, SameFee, SameEdges;
    BuiltNamesUser(q);
    var built := Built(q).value;
    FrameActors(tx, q);
    forall i | 0 <= i < |tx.ops|
      ensures EffectiveSource(tx.ops[i], tx.source) == EffectiveSource(built.ops[i], built.source)
    {
      if q.First() <= i < q.First() + |q.ops| {
        var j := i - q.First();
        assert SameUserOp(tx.ops[q.First() + j], built.ops[q.First() + j], q.ops[j], q.source.id);
        assert UserOperation(q, UserSource(q).value, q.ops[j]) == Ok(built.ops[q.First() + j]);
      }
    }
  }

  /** Around the user's operations, the normal form leaves no choice of actor. */
  lemma FrameActors(tx: Transaction, q: Quote)
    requires Built(q).Ok? && IsBuiltUpToNormalForm(tx, q)
    ensures |tx.ops| == |Built(q).value.ops| == |q.ops| + 2 * q.First() + 1
    ensures var built := Built(q).value;
      forall i :: 0 <= i < |tx.ops| && (i < q.First() || i >= q.First() + |q.ops|) ==>
           EffectiveSource(tx.ops[i], tx.source) == EffectiveSource(built.ops[i], built.source)
  {
    hide Built, BodyOf, SameUserOps, UserOperation, FeeOp, BeginOp, EndOp;
  }

  /** A user operation may name the user or leave the source out, whichever the builder does. */
  lemma SourceIsFree(q: Quote, r: Request, e: Expectations, signatures: seq<Signature>, j: nat,
                     source: Option<AccountId>) returns (tx: Transaction)
    requires Built(q).Ok? && QuoteAnswers(q, r, e) && LowerCaseIds(r.ops) && HopsReadable(q.path)
    requires j < |q.ops| && q.source.Strkey? && (source == None || source == Some(q.source.id))
    ensures q.First() + j < |Built(q).value.ops|
    ensures var ops := Built(q).value.ops;
      tx == Built(q).value.(ops := ops[q.First() + j := ops[q.First() + j].(source := source)])
    ensures Accepts(Plain(TxEnvelope(tx, signatures)), q, r, e) && AllWellSized(tx)
  {
    hide Built, SameBody, Accepts, SdkReadsOp, WellSized, BodyOf, AssetOf;
    BuiltNamesUser(q);
    ReadableToken(q, r, e);
    BuiltIsNormal(q, r);
    var built := Built(q).value;
    tx := built.(ops := built.ops[q.First() + j := built.ops[q.First() + j].(source := source)]);
    ChosenSource(q, built, tx, j, source);
    VerifierCharacterised(tx, signatures, q, r, e);
  }

  lemma ReadableToken(q: Quote, r: Request, e: Expectations)
    requires QuoteAnswers(q, r, e)
    ensures AssetOf(q.feeToken).Some? && |q.ops| == |r.ops|
    ensures forall i :: 0 <= i < |q.ops| ==> SameOp(q.ops[i], r.ops[i])
  {
  }

  lemma ChosenSource(q: Quote, built: Transaction, tx: Transaction, j: nat, source: Option<AccountId>)
    requires Built(q) == Ok(built) && IsBuiltUpToNormalForm(built, q) && j < |q.ops|
    requires source == None || source == Some(q.source.id)
    requires q.First() + j < |built.ops|
    requires tx == built.(ops := built.ops[q.First() + j := built.ops[q.First() + j].(source := source)])
    requires AllWellSized(built) && SdkReads(built)
    ensures IsBuiltUpToNormalForm(tx, q) && AllWellSized(tx) && SdkReads(tx)
  {
    hide Built, SameBody, SdkReadsOp, WellSized, UserOperation, FeeOp, BeginOp, EndOp, SameFee;
    var s := q.First();
    forall i | 0 <= i < |q.ops| ensures SameUserOp(tx.ops[s + i], built.ops[s + i], q.ops[i], q.source.id) {
      assert SameUserOp(built.ops[s + i], built.ops[s + i], q.ops[i], q.source.id);
    }
  }

  /** In bootstrap, leaving a source out hands the operation to the lane, and still passes. */
  lemma ImplicitSourceStillPasses(q: Quote, r: Request, e: Expectations, signatures: seq<Signature>, j: nat)
    returns (tx: Transaction)
    requires Built(q).Ok? && QuoteAnswers(q, r, e) && LowerCaseIds(r.ops) && HopsReadable(q.path)
    requires q.mode.Bootstrap? && q.TxSource() != q.source && j < |q.ops| && !q.ops[j].Create?
    ensures q.First() + j < |Built(q).value.ops|
    ensures var built := Built(q).value; var op := built.ops[q.First() + j];
      && tx == built.(ops := built.ops[q.First() + j := op.(source := None)])
      && Accepts(Plain(TxEnvelope(tx, signatures)), q, r, e)
      && Strkey(EffectiveSource(op, built.source)) == q.source
      && Strkey(EffectiveSource(tx.ops[q.First() + j], tx.source)) != q.source
  {
    hide Built, Accepts, BodyOf, QuoteAnswers, LowerCaseIds, HopsReadable;
    BuiltNamesUser(q);
    tx := SourceIsFree(q, r, e, signatures, j, None);
    BuiltActor(q, j);
  }

  /** The builder's own choice: the user acts, except that a createAccount is the transaction source's. */
  lemma BuiltActor(q: Quote, j: nat)
    requires Built(q).Ok? && j < |q.ops|
    ensures q.First() + j < |Built(q).value.ops|
    ensures var built := Built(q).value;
      Strkey(EffectiveSource(built.ops[q.First() + j], built.source))
      == if q.ops[j].Create? then q.TxSource() else q.source
  {
    hide Built, BodyOf, FeeOp, BeginOp, EndOp;
    BuiltNamesUser(q);
    assert UserOperation(q, UserSource(q).value, q.ops[j]) == Ok(Built(q).value.ops[q.First() + j]);
  }

  ghost predicate ActorsAlwaysAgree(q: Quote, r: Request, e: Expectations)
    requires Built(q).Ok?
  {
    forall tx :: AllWellSized(tx) && Accepts(Plain(TxEnvelope(tx, [])), q, r, e) ==> SameActors(tx, Built(q).value)
  }

  /**
   * Every transaction accepted for a quote has the builder's actors, operation by operation, exactly
   * when the user sources the transaction: with a lane as its source, leaving the source out of a user
   * operation, or naming the user on a createAccount, changes who acts and passes.
   */
  lemma ActorsAgreeExactlyWhen(q: Quote, r: Request, e: Expectations)
    requires Built(q).Ok? && QuoteAnswers(q, r, e) && LowerCaseIds(r.ops) && HopsReadable(q.path) && q.ops != []
    ensures ActorsAlwaysAgree(q, r, e) <==> q.TxSource() == q.source
  {
    hide Built, Accepts, IsBuiltUpToNormalForm, QuoteAnswers, LowerCaseIds, HopsReadable, AllWellSized;
    BuiltNamesUser(q);
    if q.TxSource() == q.source {
      forall tx | AllWellSized(tx) && Accepts(Plain(TxEnvelope(tx, [])), q, r, e)
        ensures SameActors(tx, Built(q).value)
      {
        VerifierSound(tx, [], q, r, e);
        SameSourceActors(tx, q);
      }
    } else {
      BuiltActor(q, 0);
      var tx := SourceIsFree(q, r, e, [], 0, if q.ops[0].Create? then Some(q.source.id) else None);
      assert EffectiveSource(tx.ops[q.First()], tx.source)
          != EffectiveSource(Built(q).value.ops[q.First()], Built(q).value.source);
      assert !SameActors(tx, Built(q).value);
    }
  }
}
