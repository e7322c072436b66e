// Which answers about a claim can be trusted, although parts of the predicate could not be judged.
module Refusals {
  import opened Prelude
  import opened Predicates

  /**
   * A part the evaluator cannot judge: past the depth cap, a conjunction or disjunction that is no
   * pair, a leaf nobody can read, or one that counts from a creation time it does not know.
   */
  predicate Refused(n: Node, depth: nat, known: Option<int>) {
    || depth > DEPTH_CAP
    || (n.conj.Parts? && |n.conj.nodes| != 2)
    || (n.conj.Absent? && n.disj.Parts? && |n.disj.nodes| != 2)
    || (IsLeaf(n) && (!ReadableLeaf(n) || (CountsFromCreation(n) && known.None?)))
  }

  /** What the refused parts mean: all the same, or one thing on the left and another on the right. */
  datatype Guess = Same(answer: bool) | Split(left: Guess, right: Guess)

  function LeftOf(g: Guess): Guess {
    match g
    case Same(_) => g
    case Split(left, _) => left
  }

  function RightOf(g: Guess): Guess {
    match g
    case Same(_) => g
    case Split(_, right) => right
  }

  /** What the tree says when its refused parts mean what `g` guesses. */
  predicate Under(n: Node, now: int, known: Option<int>, depth: nat, g: Guess)
    decreases n
  {
    if Refused(n, depth, known) then g.Same? && g.answer
    else if n.conj.Parts? then
      Under(n.conj.nodes[0], now, known, depth + 1, LeftOf(g))
      && Under(n.conj.nodes[1], now, known, depth + 1, RightOf(g))
    else if n.disj.Parts? then
      Under(n.disj.nodes[0], now, known, depth + 1, LeftOf(g))
      || Under(n.disj.nodes[1], now, known, depth + 1, RightOf(g))
    else if n.negated.Some? then !Under(n.negated.value, now, known, depth + 1, g)
    else LeafHolds(n, now, known)
  }

  /** Three-valued evaluation: a refused part is open, and stays so unless a neighbour decides. */
  datatype Verdict = Yes | No | Open

  function Both(a: Verdict, b: Verdict): Verdict {
    if a.No? || b.No? then No else if a.Yes? && b.Yes? then Yes else Open
  }

  function Opposite(a: Verdict): Verdict {
    match a
    case Yes => No
    case No => Yes
    case Open => Open
  }

  function ThreeValued(n: Node, now: int, known: Option<int>, depth: nat): Verdict
    decreases n
  {
    if Refused(n, depth, known) then Open
    else if n.conj.Parts? then
      Both(ThreeValued(n.conj.nodes[0], now, known, depth + 1), ThreeValued(n.conj.nodes[1], now, known, depth + 1))
    else if n.disj.Parts? then
      Opposite(Both(Opposite(ThreeValued(n.disj.nodes[0], now, known, depth + 1)),
                    Opposite(ThreeValued(n.disj.nodes[1], now, known, depth + 1))))
    else if n.negated.Some? then Opposite(ThreeValued(n.negated.value, now, known, depth + 1))
    else if LeafHolds(n, now, known) then Yes
    else No
  }

  /** A decided verdict holds whatever the refused parts mean. */
  lemma {:induction false} DecidedUnderAll(n: Node, now: int, known: Option<int>, depth: nat, g: Guess)
    ensures ThreeValued(n, now, known, depth).Yes? ==> Under(n, now, known, depth, g)
    ensures ThreeValued(n, now, known, depth).No? ==> !Under(n, now, known, depth, g)
    decreases n
  {
    if Refused(n, depth, known) {
    } else if n.conj.Parts? {
      DecidedUnderAll(n.conj.nodes[0], now, known, depth + 1, LeftOf(g));
      DecidedUnderAll(n.conj.nodes[1], now, known, depth + 1, RightOf(g));
    } else if n.disj.Parts? {
      DecidedUnderAll(n.disj.nodes[0], now, known, depth + 1, LeftOf(g));
      DecidedUnderAll(n.disj.nodes[1], now, known, depth + 1, RightOf(g));
    } else if n.negated.Some? {
      DecidedUnderAll(n.negated.value, now, known, depth + 1, g);
    }
  }

  /** An answer the verdict does not exclude is the right one for some meaning: each refused part occurs once. */
  lemma {:induction false} SomeGuess(n: Node, now: int, known: Option<int>, depth: nat, answer: bool) returns (g: Guess)
    requires ThreeValued(n, now, known, depth) != if answer then No else Yes
    ensures Under(n, now, known, depth, g) == answer
    decreases n
  {
    g := Same(answer);
    if Refused(n, depth, known) {
    } else if n.conj.Parts? {
      g := PairGuess(n.conj.nodes, now, known, depth, answer, !answer);
    } else if n.disj.Parts? {
      g := PairGuess(n.disj.nodes, now, known, depth, answer, answer);
    } else if n.negated.Some? {
      g := SomeGuess(n.negated.value, now, known, depth + 1, !answer);
    }
  }

  /** For one part if one is enough, for both if both are needed. */
  lemma {:induction false} PairGuess(parts: seq<Node>, now: int, known: Option<int>, depth: nat, answer: bool,
                                     one: bool)
    returns (g: Guess)
    requires |parts| == 2
    requires var refuted := if answer then No else Yes;
      var a, b := ThreeValued(parts[0], now, known, depth + 1), ThreeValued(parts[1], now, known, depth + 1);
      if one then a != refuted || b != refuted else a != refuted && b != refuted
    ensures var a := Under(parts[0], now, known, depth + 1, LeftOf(g));
      var b := Under(parts[1], now, known, depth + 1, RightOf(g));
      if one then a == answer || b == answer else a == answer && b == answer
    decreases parts, 0
  {
    var left, right := Same(answer), Same(answer);
    var refuted := if answer then No else Yes;
    if ThreeValued(parts[0], now, known, depth + 1) != refuted {
      left := SomeGuess(parts[0], now, known, depth + 1, answer);
    }
    if ThreeValued(parts[1], now, known, depth + 1) != refuted {
      right := SomeGuess(parts[1], now, known, depth + 1, answer);
    }
    g := Split(left, right);
  }

  ghost predicate RightUnderAll(n: Node, now: int, known: Option<int>) {
    HoldsAt(n, now, known, 0) ==> forall g :: Under(n, now, known, 0, g)
  }

  /**
   * Exactly when the service can be believed: at a given time, saying `true` is right under every
   * meaning of the parts it could not judge if and only if the three-valued answer is yes, or the
   * service does not say `true`.
   */
  lemma TrueIsRightExactlyWhen(n: Node, now: int, known: Option<int>)
    ensures RightUnderAll(n, now, known) <==> ThreeValued(n, now, known, 0).Yes? || !HoldsAt(n, now, known, 0)
  {
    hide HoldsAt, Under, ThreeValued;
    if ThreeValued(n, now, known, 0).Yes? {
      forall g ensures Under(n, now, known, 0, g) { DecidedUnderAll(n, now, known, 0, g); }
    } else {
      var g := SomeGuess(n, now, known, 0, false);
      assert !Under(n, now, known, 0, g);
    }
  }

  // ---------- What the verdict says about the service's answer and the tree's meaning ----------

  /** What is decided, the service gets right. */
  lemma {:induction false} DecidedIsAnswered(n: Node, now: int, known: Option<int>, depth: nat)
    ensures ThreeValued(n, now, known, depth).Yes? ==> HoldsAt(n, now, known, depth)
    ensures ThreeValued(n, now, known, depth).No? ==> !HoldsAt(n, now, known, depth)
    decreases n
  {
    if Refused(n, depth, known) {
    } else if n.conj.Parts? {
      DecidedIsAnswered(n.conj.nodes[0], now, known, depth + 1);
      DecidedIsAnswered(n.conj.nodes[1], now, known, depth + 1);
    } else if n.disj.Parts? {
      DecidedIsAnswered(n.disj.nodes[0], now, known, depth + 1);
      DecidedIsAnswered(n.disj.nodes[1], now, known, depth + 1);
    } else if n.negated.Some? {
      DecidedIsAnswered(n.negated.value, now, known, depth + 1);
    }
  }

  /** The tree's own meaning is one of those the refused parts can have. */
  lemma {:induction false} MeaningIsAGuess(n: Node, now: int, known: Option<int>, created: int, depth: nat)
    returns (g: Guess)
    requires known.None? || known == Some(created)
    ensures Under(n, now, known, depth, g) == Means(n, now, created)
    decreases n
  {
    g := Same(Means(n, now, created));
    if Refused(n, depth, known) {
    } else if n.conj.Parts? {
      var left := MeaningIsAGuess(n.conj.nodes[0], now, known, created, depth + 1);
      var right := MeaningIsAGuess(n.conj.nodes[1], now, known, created, depth + 1);
      g := Split(left, right);
    } else if n.disj.Parts? {
      var left := MeaningIsAGuess(n.disj.nodes[0], now, known, created, depth + 1);
      var right := MeaningIsAGuess(n.disj.nodes[1], now, known, created, depth + 1);
      g := Split(left, right);
    } else if n.negated.Some? {
      g := MeaningIsAGuess(n.negated.value, now, known, created, depth + 1);
    }
  }

  /** So wherever the condition holds, `true` is never wrong. */
  lemma RightMeansRight(n: Node, now: int, known: Option<int>, created: int)
    requires (known.None? || known == Some(created)) && RightUnderAll(n, now, known)
    ensures HoldsAt(n, now, known, 0) ==> Means(n, now, created)
  {
    hide HoldsAt, Under, Means;
    var g := MeaningIsAGuess(n, now, known, created, 0);
  }

  /** The guard, which looks at no clock, ensures the condition at every time. */
  lemma {:induction false} GuardedIsDecided(n: Node, now: int, known: Option<int>, depth: nat, even: bool)
    requires Guarded(n, depth, even, known.Some?)
    ensures even && HoldsAt(n, now, known, depth) ==> ThreeValued(n, now, known, depth).Yes?
    ensures !even && !HoldsAt(n, now, known, depth) ==> ThreeValued(n, now, known, depth).No?
    decreases n
  {
    if Refused(n, depth, known) {
    } else if n.conj.Parts? {
      GuardedIsDecided(n.conj.nodes[0], now, known, depth + 1, even);
      GuardedIsDecided(n.conj.nodes[1], now, known, depth + 1, even);
    } else if n.disj.Parts? {
      GuardedIsDecided(n.disj.nodes[0], now, known, depth + 1, even);
      GuardedIsDecided(n.disj.nodes[1], now, known, depth + 1, even);
    } else if n.negated.Some? {
      GuardedIsDecided(n.negated.value, now, known, depth + 1, !even);
    }
  }
}
