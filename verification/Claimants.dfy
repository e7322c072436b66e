// The two claimants of every claimable balance the service leaves, as both programs build them.
module Claimants {
  import opened Stellar

  const RECLAIM_AFTER_SECONDS: int := 7 * 24 * 60 * 60

  const RECLAIM_CONDITION: ClaimPredicate := Not(BeforeRelativeTime(RECLAIM_AFTER_SECONDS))

  /** Rust's derived order on key bytes: the first difference decides. */
  predicate BytesLess(a: seq<byte>, b: seq<byte>) {
    if b == [] then false
    else if a == [] then true
    else a[0] < b[0] || (a[0] == b[0] && BytesLess(a[1..], b[1..]))
  }

  predicate AccountLess(a: AccountId, b: AccountId) { BytesLess(a.key, b.key) }

  predicate Sorted(claimants: seq<Claimant>) {
    forall i, j :: 0 <= i < j < |claimants| ==> AccountLess(claimants[i].destination, claimants[j].destination)
  }

  /** Destination at once, sender after seven days, ordered by account. */
  function ClaimantPair(source: AccountId, destination: AccountId): seq<Claimant> {
    var dest := Claimant(destination, Unconditional);
    var reclaim := Claimant(source, RECLAIM_CONDITION);
    if AccountLess(source, destination) then [reclaim, dest] else [dest, reclaim]
  }

  /** The first byte that differs decides; a key that ends first comes first. */
  predicate DiffersAt(a: seq<byte>, b: seq<byte>, i: nat) {
    i <= |a| && i < |b| && a[..i] == b[..i] && (i == |a| || a[i] < b[i])
  }

  lemma {:induction false} LessExactly(a: seq<byte>, b: seq<byte>)
    ensures BytesLess(a, b) <==> exists i: nat :: DiffersAt(a, b, i)
  {
    if b == [] {
    } else if a == [] {
      assert DiffersAt(a, b, 0);
    } else {
      LessExactly(a[1..], b[1..]);
      if a[0] < b[0] { assert DiffersAt(a, b, 0); }
      if a[0] == b[0] && BytesLess(a[1..], b[1..]) {
        var i: nat :| DiffersAt(a[1..], b[1..], i);
        assert a[..i + 1] == [a[0]] + a[1..][..i] && b[..i + 1] == [b[0]] + b[1..][..i];
        assert DiffersAt(a, b, i + 1);
      }
      forall i: nat | DiffersAt(a, b, i) ensures BytesLess(a, b) {
        if i > 0 {
          assert a[0] == a[..i][0] && b[0] == b[..i][0];
          assert a[1..][..i - 1] == a[..i][1..] && b[1..][..i - 1] == b[..i][1..];
          assert DiffersAt(a[1..], b[1..], i - 1);
        }
      }
    }
  }

  lemma {:induction false} BytesTrichotomy(a: seq<byte>, b: seq<byte>)
    ensures BytesLess(a, b) || BytesLess(b, a) || a == b
    ensures !(BytesLess(a, b) && BytesLess(b, a)) && !BytesLess(a, a)
  {
    if a != [] && b != [] {
      BytesTrichotomy(a[1..], b[1..]);
      BytesTrichotomy(a[1..], a[1..]);
      assert a == [a[0]] + a[1..] && b == [b[0]] + b[1..];
    } else if a != [] {
      BytesTrichotomy(a[1..], a[1..]);
    }
  }

  /** The first difference decides, wherever it stands. */
  lemma {:induction false} DecidedAt(a: seq<byte>, b: seq<byte>, i: nat)
    requires i < |a| && i < |b| && a[..i] == b[..i] && a[i] != b[i]
    ensures BytesLess(a, b) <==> a[i] < b[i]
  {
    if i == 0 {
    } else {
      assert a[0] == a[..i][0] == b[..i][0] == b[0];
      assert a[1..][..i - 1] == a[..i][1..] && b[1..][..i - 1] == b[..i][1..];
      DecidedAt(a[1..], b[1..], i - 1);
    }
  }

  /** Two distinct accounts always make a pair in strict order, naming both once. */
  lemma PairSorted(source: AccountId, destination: AccountId)
    requires source != destination
    ensures Sorted(ClaimantPair(source, destination))
    ensures multiset(ClaimantPair(source, destination))
         == multiset{Claimant(destination, Unconditional), Claimant(source, RECLAIM_CONDITION)}
  {
    BytesTrichotomy(source.key, destination.key);
  }

  /** A strictly sorted pair with the right two members is the pair the service builds. */
  lemma SortedPairUnique(claimants: seq<Claimant>, source: AccountId, destination: AccountId)
    requires |claimants| == 2 && Sorted(claimants)
    requires Claimant(destination, Unconditional) in claimants && Claimant(source, RECLAIM_CONDITION) in claimants
    ensures claimants == ClaimantPair(source, destination)
  {
    BytesTrichotomy(source.key, destination.key);
    assert AccountLess(claimants[0].destination, claimants[1].destination);
  }

  /** The SDK's `compareAccount`: byte by byte, the first difference is the answer. */
  method CompareAccount(left: AccountId, right: AccountId) returns (d: int)
    requires |left.key| == |right.key|
    ensures d < 0 <==> AccountLess(left, right)
    ensures d > 0 <==> AccountLess(right, left)
    ensures d == 0 <==> left == right
  {
    BytesTrichotomy(left.key, right.key);
    for i := 0 to |left.key|
      invariant left.key[..i] == right.key[..i]
    {
      if left.key[i] != right.key[i] {
        DecidedAt(left.key, right.key, i);
        DecidedAt(right.key, left.key, i);
        return left.key[i] as int - right.key[i] as int;
      }
    }
    assert left.key == left.key[..|left.key|] == right.key[..|left.key|] == right.key;
    return 0;
  }

  /** The SDK's `claimableClaimants` yields the very sequence the service builds. */
  method ClaimableClaimants(source: AccountId, destination: AccountId) returns (pair: seq<Claimant>)
    requires |source.key| == |destination.key|
    ensures pair == ClaimantPair(source, destination)
    ensures source != destination ==> Sorted(pair)
  {
    var dest := Claimant(destination, Unconditional);
    var reclaim := Claimant(source, RECLAIM_CONDITION);
    pair := [dest, reclaim];
    var d := CompareAccount(dest.destination, reclaim.destination);
    if d > 0 { pair := [reclaim, dest]; }
    if source != destination { PairSorted(source, destination); }
  }
}
