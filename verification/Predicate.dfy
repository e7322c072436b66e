// Claim predicates: what CAP-0023 means, and how the service evaluates Horizon's rendering of them.
module Predicates {
  import opened Prelude
  import opened Stellar
  import opened Decimal
  import opened Calendar
  import Claimants

  // ---------- CAP-0023 ----------

  /** Relative deadlines count from creation and are capped at the largest time point. */
  predicate Holds(p: ClaimPredicate, now: int, created: int) {
    match p
    case Unconditional => true
    case And(a, b) => Holds(a, now, created) && Holds(b, now, created)
    case Or(a, b) => Holds(a, now, created) || Holds(b, now, created)
    case Not(a) => !Holds(a, now, created)
    case BeforeAbsoluteTime(t) => now < t
    case BeforeRelativeTime(s) => now < Saturate(created + s)
  }

  /** Nodes on the longest branch. */
  function Height(p: ClaimPredicate): nat {
    match p
    case And(a, b) => 1 + Max(Height(a), Height(b))
    case Or(a, b) => 1 + Max(Height(a), Height(b))
    case Not(a) => 1 + Height(a)
    case _ => 1
  }

  // ---------- Horizon's rendering ----------

  /** The children of an `and` or an `or`, when the key is there. */
  datatype Parts = Absent | Parts(nodes: seq<Node>)

  datatype Node = Node(
    unconditional: Option<bool>, conj: Parts, disj: Parts, negated: Option<Node>,
    absBefore: Option<string>, absBeforeEpoch: Option<string>, relBefore: Option<string>)

  const EMPTY_NODE := Node(None, Absent, Absent, None, None, None, None)

  function ReadEpoch(n: Node): Option<int> {
    var s :- n.absBeforeEpoch;
    ParseI64(s)
  }

  function ReadAbsolute(n: Node): Option<int> {
    var s :- n.absBefore;
    ParseStamp(s)
  }

  function ReadRelative(n: Node): Option<int> {
    var s :- n.relBefore;
    ParseI64(s)
  }

  predicate LeafHolds(n: Node, now: int, created: Option<int>) {
    if n.unconditional.Some? then n.unconditional.value
    else if ReadEpoch(n).Some? then now < ReadEpoch(n).value
    else if ReadAbsolute(n).Some? then now < ReadAbsolute(n).value
    else if ReadRelative(n).Some? then created.Some? && now < Saturate(created.value + ReadRelative(n).value)
    else true
  }

  const DEPTH_CAP: nat := 4

  /** `holds_at`. Too deep, or a conjunction or disjunction that is not a pair: not claimable. */
  predicate HoldsAt(n: Node, now: int, created: Option<int>, depth: nat)
    decreases n
  {
    if depth > DEPTH_CAP then false
    else if n.conj.Parts? then
      |n.conj.nodes| == 2
      && HoldsAt(n.conj.nodes[0], now, created, depth + 1) && HoldsAt(n.conj.nodes[1], now, created, depth + 1)
    else if n.disj.Parts? then
      |n.disj.nodes| == 2
      && (HoldsAt(n.disj.nodes[0], now, created, depth + 1) || HoldsAt(n.disj.nodes[1], now, created, depth + 1))
    else if n.negated.Some? then !HoldsAt(n.negated.value, now, created, depth + 1)
    else LeafHolds(n, now, created)
  }

  predicate IsLeaf(n: Node) { n.conj.Absent? && n.disj.Absent? && n.negated.None? }

  predicate NoStamp(n: Node) { n.absBefore.None? && n.absBeforeEpoch.None? && n.relBefore.None? }

  /** `n` is a rendering of `p`, in any of the spellings Horizon has used. */
  ghost predicate Renders(n: Node, p: ClaimPredicate)
    decreases p
  {
    match p
    case And(a, b) =>
      n.conj.Parts? && |n.conj.nodes| == 2 && Renders(n.conj.nodes[0], a) && Renders(n.conj.nodes[1], b)
    case Or(a, b) =>
      n.conj.Absent? && n.disj.Parts? && |n.disj.nodes| == 2
      && Renders(n.disj.nodes[0], a) && Renders(n.disj.nodes[1], b)
    case Not(a) => n.conj.Absent? && n.disj.Absent? && n.negated.Some? && Renders(n.negated.value, a)
    case Unconditional => IsLeaf(n) && (n.unconditional == Some(true) || (n.unconditional.None? && NoStamp(n)))
    case BeforeAbsoluteTime(t) =>
      IsLeaf(n) && n.unconditional.None?
      && (ReadEpoch(n) == Some(t) || (ReadEpoch(n).None? && ReadAbsolute(n) == Some(t)))
    case BeforeRelativeTime(s) =>
      IsLeaf(n) && n.unconditional.None? && ReadEpoch(n).None? && ReadAbsolute(n).None? && ReadRelative(n) == Some(s)
  }

  /**
   * On every tree within the depth cap, whatever spelling renders it, the service's answer is the
   * protocol's answer.
   */
  lemma {:induction false} EvaluatesCap23(n: Node, p: ClaimPredicate, now: int, created: int, depth: nat)
    requires Renders(n, p) && depth + Height(p) <= 5
    ensures HoldsAt(n, now, Some(created), depth) <==> Holds(p, now, created)
    decreases p
  {
    match p
    case And(a, b) =>
      EvaluatesCap23(n.conj.nodes[0], a, now, created, depth + 1);
      EvaluatesCap23(n.conj.nodes[1], b, now, created, depth + 1);
    case Or(a, b) =>
      EvaluatesCap23(n.disj.nodes[0], a, now, created, depth + 1);
      EvaluatesCap23(n.disj.nodes[1], b, now, created, depth + 1);
    case Not(a) => EvaluatesCap23(n.negated.value, a, now, created, depth + 1);
    case _ =>
  }

  /** A fifth level of negation is one too many: what it holds is not looked at. */
  lemma FifthLevelIsRefused(n: Node, now: int, known: Option<int>)
    ensures HoldsAt(Negated(Negated(Negated(Negated(Negated(n))))), now, known, 0)
    ensures !HoldsAt(Negated(Negated(Negated(Negated(n)))), now, known, 0) <==> !HoldsAt(n, now, known, 4)
  {
    assert !HoldsAt(n, now, known, 5);
    assert HoldsAt(Negated(n), now, known, 4);
    assert HoldsAt(Negated(Negated(Negated(n))), now, known, 2);
    assert HoldsAt(Negated(Negated(n)), now, known, 2) <==> HoldsAt(n, now, known, 4);
  }

  /** A leaf that says yes or no says so, whatever stamps it carries besides. */
  lemma SaidOutright(n: Node, now: int, known: Option<int>, depth: nat)
    requires IsLeaf(n) && n.unconditional.Some? && depth <= 4
    ensures HoldsAt(n, now, known, depth) == n.unconditional.value
  {
  }

  /**
   * A leaf without a word of its own: the epoch seconds decide if they are a 64-bit number, else the stamp
   * if it is one, else the seconds from creation.
   */
  lemma DeadlineDecides(n: Node, t: int, now: int, known: Option<int>, depth: nat)
    requires IsLeaf(n) && n.unconditional.None? && depth <= 4
    ensures (exists s :: n.absBeforeEpoch == Some(s) && ParseI64(s) == Some(t)) ==>
              (HoldsAt(n, now, known, depth) <==> now < t)
    ensures n.absBeforeEpoch.None? && (exists s :: n.absBefore == Some(s) && ParseStamp(s) == Some(t)) ==>
              (HoldsAt(n, now, known, depth) <==> now < t)
    ensures n.absBeforeEpoch.None? && n.absBefore.None?
            && (exists s :: n.relBefore == Some(s) && ParseI64(s) == Some(t)) ==>
              (HoldsAt(n, now, known, depth) <==> known.Some? && now < Saturate(known.value + t))
  {
    hide ParseI64, ParseStamp;
  }

  // ---------- One-sidedness ----------

  predicate ReadableLeaf(n: Node) {
    n.unconditional.Some? || NoStamp(n) || ReadEpoch(n).Some? || ReadAbsolute(n).Some? || ReadRelative(n).Some?
  }

  /** No negation, and every leaf readable, at any depth and any number of children. */
  predicate Monotone(n: Node) {
    if n.conj.Parts? then forall i :: 0 <= i < |n.conj.nodes| ==> Monotone(n.conj.nodes[i])
    else if n.disj.Parts? then forall i :: 0 <= i < |n.disj.nodes| ==> Monotone(n.disj.nodes[i])
    else n.negated.None? && ReadableLeaf(n)
  }

  /** What such a tree says, with no depth cap and no arity: an unreadable leaf says no. */
  ghost predicate Means(n: Node, now: int, created: int) {
    if n.conj.Parts? then forall i :: 0 <= i < |n.conj.nodes| ==> Means(n.conj.nodes[i], now, created)
    else if n.disj.Parts? then exists i :: 0 <= i < |n.disj.nodes| && Means(n.disj.nodes[i], now, created)
    else if n.negated.Some? then !Means(n.negated.value, now, created)
    else ReadableLeaf(n) && LeafHolds(n, now, Some(created))
  }

  /** A leaf that needs the creation time. */
  predicate CountsFromCreation(n: Node) {
    n.unconditional.None? && ReadEpoch(n).None? && ReadAbsolute(n).None? && ReadRelative(n).Some?
  }

  /**
   * Where a refusal can do no harm. Under an even number of negations the answer must not say too
   * much, so every leaf has to be readable; under an odd number it must not say too little, so
   * nothing there may be too deep, of the wrong arity, or of an unknown creation time.
   */
  predicate Guarded(n: Node, depth: nat, even: bool, timed: bool) {
    if depth > DEPTH_CAP then even
    else if n.conj.Parts? then
      (even || |n.conj.nodes| == 2)
      && forall i :: 0 <= i < |n.conj.nodes| ==> Guarded(n.conj.nodes[i], depth + 1, even, timed)
    else if n.disj.Parts? then
      (even || |n.disj.nodes| == 2)
      && forall i :: 0 <= i < |n.disj.nodes| ==> Guarded(n.disj.nodes[i], depth + 1, even, timed)
    else if n.negated.Some? then Guarded(n.negated.value, depth + 1, !even, timed)
    else if even then ReadableLeaf(n)
    else timed || !CountsFromCreation(n)
  }

  /** One-sided at every spot, in the direction that spot needs. */
  ghost predicate OneSided(n: Node, now: int, known: Option<int>, created: int, depth: nat, even: bool) {
    if even then HoldsAt(n, now, known, depth) ==> Means(n, now, created)
    else Means(n, now, created) ==> HoldsAt(n, now, known, depth)
  }

  lemma {:induction false} GuardedIsOneSided(n: Node, now: int, known: Option<int>, created: int, depth: nat,
                                             even: bool)
    requires Guarded(n, depth, even, known.Some?) && (known.None? || known == Some(created))
    ensures OneSided(n, now, known, created, depth, even)
    decreases n
  {
    if depth > DEPTH_CAP {
    } else if n.conj.Parts? {
      var parts := n.conj.nodes;
      forall i | 0 <= i < |parts| ensures OneSided(parts[i], now, known, created, depth + 1, even) {
        GuardedIsOneSided(parts[i], now, known, created, depth + 1, even);
      }
    } else if n.disj.Parts? {
      var parts := n.disj.nodes;
      forall i | 0 <= i < |parts| ensures OneSided(parts[i], now, known, created, depth + 1, even) {
        GuardedIsOneSided(parts[i], now, known, created, depth + 1, even);
      }
    } else if n.negated.Some? {
      GuardedIsOneSided(n.negated.value, now, known, created, depth + 1, !even);
    }
  }

  lemma {:induction false} MonotoneIsGuarded(n: Node, depth: nat, timed: bool)
    requires Monotone(n)
    ensures Guarded(n, depth, true, timed)
    decreases n
  {
    if n.conj.Parts? {
      forall i | 0 <= i < |n.conj.nodes| ensures Guarded(n.conj.nodes[i], depth + 1, true, timed) {
        MonotoneIsGuarded(n.conj.nodes[i], depth + 1, timed);
      }
    } else if n.disj.Parts? {
      forall i | 0 <= i < |n.disj.nodes| ensures Guarded(n.disj.nodes[i], depth + 1, true, timed) {
        MonotoneIsGuarded(n.disj.nodes[i], depth + 1, timed);
      }
    }
  }

  /**
   * Fail-closed. Where every refusal is guarded, `true` is never wrong; a tree without negation and
   * with readable leaves is such a tree at any depth and any arity, creation time known or not.
   */
  lemma NeverClaimsTooMuch(n: Node, now: int, known: Option<int>, created: int, depth: nat)
    requires Monotone(n) || Guarded(n, depth, true, known.Some?)
    requires known.None? || known == Some(created)
    requires HoldsAt(n, now, known, depth)
    ensures Means(n, now, created)
  {
    if Monotone(n) { MonotoneIsGuarded(n, depth, known.Some?); }
    GuardedIsOneSided(n, now, known, created, depth, true);
  }

  function Negated(n: Node): Node { EMPTY_NODE.(negated := Some(n)) }

  lemma UnreadableStamp()
    ensures ParseStamp("soon") == None
  {
    assert Trim("soon") == "soon";
    assert !EndsWith("soon", "Z") && !EndsWith("soon", "+00:00");
  }

  lemma ReadableSeconds()
    ensures ParseI64("7200") == Some(7200)
  {
    assert DigitsValue("7") == 7;
    assert "72"[..1] == "7" && DigitsValue("72") == 72;
    assert "720"[..2] == "72" && DigitsValue("720") == 720;
    assert "7200"[..3] == "720";
  }

  /**
   * Under a negation the refusal flips: a node past the depth cap, a leaf whose creation time is
   * unknown both turn into `true`; a leaf nobody can read is `true` on its own. None of the three
   * is guarded.
   */
  lemma NegationFailsOpen(now: int, created: int)
    ensures var deep := Negated(Negated(Negated(Negated(Negated(EMPTY_NODE.(unconditional := Some(true)))))));
      HoldsAt(deep, now, Some(created), 0) && !Means(deep, now, created) && !Guarded(deep, 0, true, true)
    ensures var late := Negated(EMPTY_NODE.(relBefore := Some("7200")));
      && HoldsAt(late, now, None, 0) && !Guarded(late, 0, true, false)
      && (IsI64(created + 7200) && now < created + 7200 ==> !Means(late, now, created))
    ensures var garbled := EMPTY_NODE.(absBefore := Some("soon"));
      HoldsAt(garbled, now, Some(created), 0) && !Means(garbled, now, created) && !Guarded(garbled, 0, true, true)
  {
    hide ParseStamp, ParseI64;
    var leaf := EMPTY_NODE.(unconditional := Some(true));
    var n1 := Negated(leaf);
    var n2 := Negated(n1);
    var n3 := Negated(n2);
    var n4 := Negated(n3);
    assert !HoldsAt(leaf, now, Some(created), 5);
    assert HoldsAt(n1, now, Some(created), 4);
    assert !HoldsAt(n2, now, Some(created), 3);
    assert HoldsAt(n3, now, Some(created), 2);
    assert !HoldsAt(n4, now, Some(created), 1);
    assert !Guarded(leaf, 5, false, true) && !Guarded(n1, 4, true, true) && !Guarded(n2, 3, false, true);
    assert !Guarded(n3, 2, true, true) && !Guarded(n4, 1, false, true);
    assert Means(leaf, now, created) && !Means(n1, now, created) && Means(n2, now, created);
    assert !Means(n3, now, created) && Means(n4, now, created);
    UnreadableStamp();
    ReadableSeconds();
  }

  // ---------- The pair every claimable balance is left with ----------

  ghost predicate CanClaim(claimants: seq<Claimant>, who: AccountId, now: int, created: int) {
    exists i :: 0 <= i < |claimants| && claimants[i].destination == who && Holds(claimants[i].condition, now, created)
  }

  /** The destination can claim at any time; the sender from seven days on; nobody else ever. */
  lemma PairClaimable(source: AccountId, destination: AccountId, who: AccountId, now: int, created: int)
    requires source != destination && IsI64(created + 604_800)
    ensures CanClaim(Claimants.ClaimantPair(source, destination), who, now, created)
       <==> who == destination || (who == source && now >= created + 604_800)
  {
    var pair := Claimants.ClaimantPair(source, destination);
    assert Holds(Claimants.RECLAIM_CONDITION, now, created) <==> now >= created + Claimants.RECLAIM_AFTER_SECONDS;
    var d := if pair[0].destination == destination then 0 else 1;
    assert pair[d] == Claimant(destination, Unconditional);
    assert pair[1 - d] == Claimant(source, Claimants.RECLAIM_CONDITION);
    if who == destination { assert Holds(pair[d].condition, now, created); }
  }
}
