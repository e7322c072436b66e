// Which of the service's envelopes a network takes: who has to have signed, and who has.
module Admission {
  import opened Prelude
  import opened Stellar
  import opened Names
  import opened Plans
  import opened Build
  import opened Signer
  import opened Ledger
  import opened Economy
  import Agreement

  /** A lane that is the user signs for the user; otherwise only the user can. */
  predicate UserHasSigned(d: Deal)
    requires d.q.source.Strkey?
  {
    SignedBy(d.inner, d.q.source.id, d.q.network) || (d.q.mode.Bootstrap? && d.q.TxSource() == d.q.source)
  }

  /** In sponsored mode the sponsor's name on the begin needs a signature `submit` does not make. */
  predicate SandwichIsSigned(d: Deal) {
    d.q.mode.Sponsored? && d.q.Sandwiched() ==> SignedBy(d.inner, d.sponsorKey, d.q.network)
  }

  lemma DealIsBuilt(d: Deal)
    requires Honest(d)
    ensures Built(d.q) == Ok(d.inner.tx) && HasShape(d.q, d.inner.tx) && d.q.source.Strkey?
    ensures d.q.sponsor == Strkey(d.sponsorKey) && d.q.source != d.q.sponsor
    ensures Signed(d.sponsorKey, d.lanes, d.q, d.inner, d.params.baseFee) == Ok(d.envelope)
  {
    hide Issued, SaneTerms, Signed, Built;
    Agreement.BuiltNamesUser(d.q);
  }

  /** Who has signed the inner transaction when `submit` lets go of it. */
  lemma SignersOf(d: Deal, who: AccountId)
    requires Signed(d.sponsorKey, d.lanes, d.q, d.inner, d.params.baseFee) == Ok(d.envelope)
    ensures d.envelope.inner.tx == d.inner.tx
    ensures SignedBy(d.envelope.inner, who, d.q.network) <==>
      || SignedBy(d.inner, who, d.q.network)
      || (d.q.mode.Bootstrap? && who == d.sponsorKey)
      || (d.q.mode.Bootstrap? && d.q.TxSource() != d.q.sponsor && Strkey(who) == d.q.TxSource())
  {
    hide BumpFee;
    LaneKeyFound(d.lanes, d.q.TxSource());
    if d.q.mode.Bootstrap? {
      var first := SignatureOf(d.sponsorKey, d.inner, d.q.network);
      if d.q.TxSource() == d.q.sponsor {
        assert d.envelope.inner.signatures == d.inner.signatures + [first];
      } else {
        var lane := LaneKey(d.lanes, d.q.TxSource()).value;
        assert d.envelope.inner.signatures == d.inner.signatures + [SignatureOf(lane, d.inner, d.q.network)] + [first];
      }
    }
  }

  /** The outside of a bump is always signed. */
  lemma BumpIsSigned(d: Deal)
    requires Signed(d.sponsorKey, d.lanes, d.q, d.inner, d.params.baseFee) == Ok(d.envelope)
    ensures var e := d.envelope;
      e.FeeBump? ==> Signature(e.feeSource, BumpPayload(d.q.network, e.feeSource, e.fee, e.inner)) in e.signatures
  {
    hide BumpFee, LaneKey, CoSigned;
  }

  /** The accounts a built transaction names as sources: its own, the user, and the sponsor on the begin. */
  lemma NamedSources(q: Quote, tx: Transaction, sponsor: AccountId)
    requires HasShape(q, tx) && q.source.Strkey? && q.sponsor == Strkey(sponsor)
    ensures forall i :: 0 <= i < |tx.ops| ==>
      var a := EffectiveSource(tx.ops[i], tx.source);
      a == tx.source || a == q.source.id || (a == sponsor && q.Sandwiched())
    ensures EffectiveSource(tx.ops[|tx.ops| - 1], tx.source) == q.source.id
    ensures q.Sandwiched() ==> EffectiveSource(tx.ops[0], tx.source) == sponsor
    ensures Strkey(tx.source) == q.TxSource()
  {
    forall i | 0 <= i < |tx.ops|
      ensures var a := EffectiveSource(tx.ops[i], tx.source);
        a == tx.source || a == q.source.id || (a == sponsor && q.Sandwiched())
    {
      SourcesOf(q, tx, i);
    }
    hide BodyOf, UserOperation, XdrAsset, XdrAssets;
  }

  /**
   * What `submit` sends is authorised exactly when the user has signed and, in sponsored mode, no
   * sandwich is opened that the sponsor has not signed inside.
   */
  lemma AuthorisedExactlyWhen(d: Deal)
    requires Honest(d)
    ensures d.q.source.Strkey?
    ensures Authorised(d.envelope, d.q.network) <==> UserHasSigned(d) && SandwichIsSigned(d)
  {
    hide Honest, HasShape, Built, Signed, SignedBy;
    DealIsBuilt(d);
    var tx, user := d.inner.tx, d.q.source.id;
    NamedSources(d.q, tx, d.sponsorKey);
    BumpIsSigned(d);
    SignersOf(d, user);
    SignersOf(d, d.sponsorKey);
    SignersOf(d, tx.source);
    ShapeSize(d.q, tx);
    var e, last := d.envelope, tx.ops[|tx.ops| - 1];
    assert Covered(e.inner, d.q.network) ==> SignedBy(e.inner, EffectiveSource(last, tx.source), d.q.network);
    if d.q.Sandwiched() {
      assert Covered(e.inner, d.q.network) ==> SignedBy(e.inner, EffectiveSource(tx.ops[0], tx.source), d.q.network);
    }
  }

  lemma ShapeSize(q: Quote, tx: Transaction)
    requires HasShape(q, tx)
    ensures |tx.ops| == |q.ops| + 2 * q.First() + 1
  {
  }

  /** So a sponsored quote with reserves, signed by the user alone, is refused on every ledger. */
  lemma SandwichNeverIncluded(d: Deal, l: State, fee: nat, env: Env)
    requires Honest(d) && env.network == d.q.network && d.q.mode.Sponsored? && d.q.Sandwiched()
    requires !SignedBy(d.inner, d.sponsorKey, d.q.network)
    ensures Apply(l, SubmissionOf(d.envelope), fee, env) == Rejected
  {
    hide Honest, Authorised;
    AuthorisedExactlyWhen(d);
    assert SubmissionOf(d.envelope).envelope == d.envelope;
  }

  /** A bootstrap quote the user has signed is never refused for a signature. */
  lemma BootstrapIsAuthorised(d: Deal)
    requires Honest(d) && d.q.mode.Bootstrap? && d.q.source.Strkey? && UserHasSigned(d)
    ensures Authorised(d.envelope, d.q.network)
  {
    hide Honest, Authorised, UserHasSigned;
    AuthorisedExactlyWhen(d);
  }
}
