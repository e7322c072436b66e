// The part of Stellar's transaction format the service and its client exchange.
// A transaction is compared as a value: the XDR codec is injective and is not modelled.
module Stellar {
  import opened Prelude

  newtype byte = x: int | 0 <= x < 256

  /** An Ed25519 public key. Keys are compared byte by byte, most significant first. */
  datatype AccountId = AccountId(key: seq<byte>)

  datatype Asset = Native | Credit(code: string, issuer: AccountId)

  /** A version-zero claimable balance id: the 32-byte hash. */
  datatype BalanceId = BalanceId(hash: seq<byte>)

  /** CAP-0023 claim predicates. */
  datatype ClaimPredicate =
    | Unconditional
    | And(left: ClaimPredicate, right: ClaimPredicate)
    | Or(left: ClaimPredicate, right: ClaimPredicate)
    | Not(inner: ClaimPredicate)
    | BeforeAbsoluteTime(time: int)
    | BeforeRelativeTime(seconds: int)

  datatype Claimant = Claimant(destination: AccountId, condition: ClaimPredicate)

  datatype TrustLine = AssetLine(asset: Asset) | PoolShare

  datatype OpBody =
    | BeginSponsoring(sponsoredId: AccountId)
    | EndSponsoring
    | CreateAccount(newAccount: AccountId, startingBalance: int)
    | Payment(destination: AccountId, asset: Asset, amount: int)
    | PathStrictSend(sendAsset: Asset, sendAmount: int, destination: AccountId,
                     destAsset: Asset, destMin: int, path: seq<Asset>)
    | PathStrictReceive(sendAsset: Asset, sendMax: int, destination: AccountId,
                        destAsset: Asset, destAmount: int, path: seq<Asset>)
    | ClaimClaimable(balanceId: BalanceId)
    | ChangeTrust(line: TrustLine, limit: int)
    | CreateClaimable(asset: Asset, amount: int, claimants: seq<Claimant>)
    | OtherOperation(name: string)

  /** No source means the transaction's source. */
  datatype Operation = Operation(source: Option<AccountId>, body: OpBody)

  datatype Transaction = Transaction(
    source: AccountId, fee: nat, sequence: int, minTime: nat, maxTime: nat,
    memo: Option<string>, ops: seq<Operation>)

  function EffectiveSource(op: Operation, txSource: AccountId): AccountId {
    match op.source
    case Some(a) => a
    case None => txSource
  }

  /** What a signature covers, network included. */
  datatype Payload =
    | TxPayload(network: string, tx: Transaction)
    | BumpPayload(network: string, feeSource: AccountId, fee: int, inner: TxEnvelope)

  datatype Signature = Signature(signer: AccountId, payload: Payload)

  datatype TxEnvelope = TxEnvelope(tx: Transaction, signatures: seq<Signature>)

  datatype Envelope =
    | Plain(inner: TxEnvelope)
    | FeeBump(feeSource: AccountId, fee: int, inner: TxEnvelope, signatures: seq<Signature>)

  // ---------- Who has to have signed ----------

  /** A key's signature is a value only that key makes. */
  function SignatureOf(key: AccountId, envelope: TxEnvelope, network: string): Signature {
    Signature(key, TxPayload(network, envelope.tx))
  }

  predicate SignedBy(inner: TxEnvelope, who: AccountId, network: string) {
    SignatureOf(who, inner, network) in inner.signatures
  }

  /** Every account that sources the transaction or one of its operations has signed it. */
  predicate Covered(inner: TxEnvelope, network: string) {
    && SignedBy(inner, inner.tx.source, network)
    && forall i :: 0 <= i < |inner.tx.ops| ==>
         SignedBy(inner, EffectiveSource(inner.tx.ops[i], inner.tx.source), network)
  }

  /** What a network asks before it includes anything: a bump is signed by who pays for it, too. */
  predicate Authorised(e: Envelope, network: string) {
    && Covered(e.inner, network)
    && (e.FeeBump? ==> Signature(e.feeSource, BumpPayload(network, e.feeSource, e.fee, e.inner)) in e.signatures)
  }
}
