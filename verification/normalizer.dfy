/**
 * The conversion toward conjunctive normal form: five total rewrites applied
 * in a fixed order. Each stage is modelled as a pure function (the shared
 * subtrees the in-place rewriting creates are not modelled). Every stage
 * keeps the truth value and the atoms, and changes a formula exactly when
 * the pattern it rewrites occurs somewhere in it. The last two stages are
 * incomplete: their output need not be in conjunctive normal form.
 */
module Normalizer {
  import opened Types
  import opened Semantics

  /** Some node of the formula carries the action op. */
  predicate Uses(e: Expr, op: Op) {
    match e
    case Atom(_) => false
    case Neg(a) => Uses(a, op)
    case Bin(o, l, r) => o == op || Uses(l, op) || Uses(r, op)
  }

  predicate IsJunction(e: Expr) {
    e.Bin? && (e.op == And || e.op == Or)
  }

  /** Some node is the negation of a conjunction or of a disjunction. */
  predicate HasNegatedJunction(e: Expr) {
    match e
    case Atom(_) => false
    case Neg(a) => IsJunction(a) || HasNegatedJunction(a)
    case Bin(_, l, r) => HasNegatedJunction(l) || HasNegatedJunction(r)
  }

  /** Some node is a negation of a negation. */
  predicate HasDoubleNegation(e: Expr) {
    match e
    case Atom(_) => false
    case Neg(a) => a.Neg? || HasDoubleNegation(a)
    case Bin(_, l, r) => HasDoubleNegation(l) || HasDoubleNegation(r)
  }

  /** The two shapes `distributeOr` rewrites: atom ∨ (X ∧ Y), and (X ∧ Y) ∨ B. */
  predicate Distributable(e: Expr) {
    e.Bin? && e.op == Or &&
    ((e.left.Atom? && e.right.Bin? && e.right.op == And) || (e.left.Bin? && e.left.op == And))
  }

  predicate HasDistributable(e: Expr) {
    Distributable(e) ||
    match e
    case Atom(_) => false
    case Neg(a) => HasDistributable(a)
    case Bin(_, l, r) => HasDistributable(l) || HasDistributable(r)
  }

  /** Stage 1, `removeBijections`: A ↔ B becomes (A → B) ∧ (B → A), everywhere. */
  function RemoveBijections(e: Expr): (r: Expr)
    ensures !Uses(r, Eqv)
    ensures forall op | op != Eqv && op != And && op != Impl :: Uses(r, op) == Uses(e, op)
    ensures Atoms(r) == Atoms(e)
    ensures Known(r) == Known(e)
    ensures Known(e) ==> forall v :: Eval(r, v) == Eval(e, v)
    ensures r == e <==> !Uses(e, Eqv)
  {
    match e
    case Atom(_) => e
    case Neg(a) => Neg(RemoveBijections(a))
    case Bin(Eqv, a, b) =>
      var ra := RemoveBijections(a);
      var rb := RemoveBijections(b);
      Bin(And, Bin(Impl, ra, rb), Bin(Impl, rb, ra))
    case Bin(op, a, b) => Bin(op, RemoveBijections(a), RemoveBijections(b))
  }

  /** Stage 2, `replaceImplications`: A → B becomes ¬A ∨ B, everywhere. */
  function ReplaceImplications(e: Expr): (r: Expr)
    ensures !Uses(r, Impl)
    ensures forall op | op != Impl && op != Or :: Uses(r, op) == Uses(e, op)
    ensures Atoms(r) == Atoms(e)
    ensures Known(r) == Known(e)
    ensures Known(e) ==> forall v :: Eval(r, v) == Eval(e, v)
    ensures r == e <==> !Uses(e, Impl)
  {
    match e
    case Atom(_) => e
    case Neg(a) => Neg(ReplaceImplications(a))
    case Bin(Impl, a, b) => Bin(Or, Neg(ReplaceImplications(a)), ReplaceImplications(b))
    case Bin(op, a, b) => Bin(op, ReplaceImplications(a), ReplaceImplications(b))
  }

  /**
   * Stage 3, `applyDeMorgan`: ¬(A ∧ B) becomes ¬A ∨ ¬B and ¬(A ∨ B) becomes
   * ¬A ∧ ¬B, and the new negations are pushed further. A negated atom is left
   * alone, and at any other negation (a double negation included) the stage
   * only descends.
   */
  function ApplyDeMorgan(e: Expr): (r: Expr)
    decreases Size(e)
    ensures forall op | op != And && op != Or :: Uses(r, op) == Uses(e, op)
    ensures Atoms(r) == Atoms(e)
    ensures Known(r) == Known(e)
    ensures Known(e) ==> forall v :: Eval(r, v) == Eval(e, v)
    ensures r == e <==> !HasNegatedJunction(e)
  {
    match e
    case Atom(_) => e
    case Neg(Atom(_)) => e
    case Neg(Bin(And, a, b)) =>
      assert Size(Neg(a)) < Size(e) && Size(Neg(b)) < Size(e);
      Bin(Or, ApplyDeMorgan(Neg(a)), ApplyDeMorgan(Neg(b)))
    case Neg(Bin(Or, a, b)) =>
      assert Size(Neg(a)) < Size(e) && Size(Neg(b)) < Size(e);
      Bin(And, ApplyDeMorgan(Neg(a)), ApplyDeMorgan(Neg(b)))
    case Neg(a) => Neg(ApplyDeMorgan(a))
    case Bin(op, a, b) => Bin(op, ApplyDeMorgan(a), ApplyDeMorgan(b))
  }

  /**
   * Stage 4, `eliminateDoubleNegations`: at a node ¬¬X the two negations are
   * dropped; an atom X is returned as is, otherwise the stage continues into
   * X's arguments only, so X itself is not examined again.
   */
  function EliminateDoubleNegations(e: Expr): (r: Expr)
    ensures Size(r) <= Size(e)
    ensures forall op :: Uses(r, op) == Uses(e, op)
    ensures Atoms(r) == Atoms(e)
    ensures Known(r) == Known(e)
    ensures Known(e) ==> forall v :: Eval(r, v) == Eval(e, v)
    ensures r == e <==> !HasDoubleNegation(e)
  {
    match e
    case Atom(_) => e
    case Neg(Neg(x)) =>
      DoubleNegationFacts(x);
      (match x
       case Atom(_) => x
       case Neg(y) =>
         DoubleNegationFacts(y);
         Neg(EliminateDoubleNegations(y))
       case Bin(op, a, b) => Bin(op, EliminateDoubleNegations(a), EliminateDoubleNegations(b)))
    case Neg(a) => Neg(EliminateDoubleNegations(a))
    case Bin(op, a, b) => Bin(op, EliminateDoubleNegations(a), EliminateDoubleNegations(b))
  }

  /** Two negations add two to the size and change nothing else a stage's contract mentions. */
  lemma DoubleNegationFacts(x: Expr)
    ensures Size(Neg(Neg(x))) == 2 + Size(x)
    ensures Atoms(Neg(Neg(x))) == Atoms(x)
    ensures Known(Neg(Neg(x))) == Known(x)
    ensures forall o :: Uses(Neg(Neg(x)), o) == Uses(x, o)
    ensures Known(x) ==> forall v :: Eval(Neg(Neg(x)), v) == Eval(x, v)
  {
  }

  /**
   * Stage 5, `distributeOr`: A ∨ (X ∧ Y) with A an atom becomes
   * (A ∨ X) ∧ (A ∨ Y), and (X ∧ Y) ∨ B becomes (X ∨ B) ∧ (Y ∨ B); the new
   * disjunctions are distributed in turn. A disjunction whose left side is
   * neither an atom nor a conjunction is not rewritten, only descended into.
   */
  function DistributeOr(e: Expr): (r: Expr)
    decreases Size(e)
    ensures forall op :: Uses(r, op) == Uses(e, op)
    ensures Atoms(r) == Atoms(e)
    ensures Known(r) == Known(e)
    ensures Known(e) ==> forall v :: Eval(r, v) == Eval(e, v)
    ensures r == e <==> !HasDistributable(e)
  {
    match e
    case Atom(_) => e
    case Neg(a) => Neg(DistributeOr(a))
    case Bin(Or, Atom(_), Atom(_)) => e
    case Bin(Or, Atom(x), Bin(And, p, q)) =>
      assert Size(Bin(Or, Atom(x), p)) < Size(e) && Size(Bin(Or, Atom(x), q)) < Size(e);
      Bin(And, DistributeOr(Bin(Or, Atom(x), p)), DistributeOr(Bin(Or, Atom(x), q)))
    case Bin(Or, Bin(And, p, q), b) =>
      assert Size(Bin(Or, p, b)) < Size(e) && Size(Bin(Or, q, b)) < Size(e);
      Bin(And, DistributeOr(Bin(Or, p, b)), DistributeOr(Bin(Or, q, b)))
    case Bin(op, a, b) => Bin(op, DistributeOr(a), DistributeOr(b))
  }

  /**
   * `toCNF`: the five stages in order, on a copy of the argument. The result
   * has the same atoms and the same truth value under every assignment, and
   * no implication or equivalence is left in it.
   */
  function ToCNF(e: Expr): (r: Expr)
    ensures e.Atom? ==> r == e
    ensures !Uses(r, Eqv) && !Uses(r, Impl)
    ensures Atoms(r) == Atoms(e)
    ensures Known(r) == Known(e)
    ensures Known(e) ==> forall v :: Eval(r, v) == Eval(e, v)
  {
    if e.Atom? then e
    else
      DistributeOr(
      EliminateDoubleNegations(
      ApplyDeMorgan(
      ReplaceImplications(
      RemoveBijections(
        Clone(e))))))
  }

  /** An implication between atoms normalizes to ¬A ∨ B. */
  lemma ToCNFOfImplication(a: string, b: string)
    ensures ToCNF(Bin(Impl, Atom(a), Atom(b))) == Bin(Or, Neg(Atom(a)), Atom(b))
  {
    var e := Bin(Impl, Atom(a), Atom(b));
    var f := Bin(Or, Neg(Atom(a)), Atom(b));
    assert RemoveBijections(e) == e;
    assert ReplaceImplications(e) == f;
    assert ApplyDeMorgan(f) == f;
    assert EliminateDoubleNegations(f) == f;
    assert DistributeOr(f) == f;
  }

  /** An equivalence between atoms normalizes to (¬A ∨ B) ∧ (¬B ∨ A), forward implication first. */
  lemma ToCNFOfEquivalence(a: string, b: string)
    ensures ToCNF(Bin(Eqv, Atom(a), Atom(b)))
         == Bin(And, Bin(Or, Neg(Atom(a)), Atom(b)), Bin(Or, Neg(Atom(b)), Atom(a)))
  {
    var e := Bin(Eqv, Atom(a), Atom(b));
    var g := Bin(And, Bin(Impl, Atom(a), Atom(b)), Bin(Impl, Atom(b), Atom(a)));
    var f := Bin(And, Bin(Or, Neg(Atom(a)), Atom(b)), Bin(Or, Neg(Atom(b)), Atom(a)));
    assert RemoveBijections(e) == g;
    assert ReplaceImplications(g) == f;
    assert ApplyDeMorgan(f) == f;
    assert EliminateDoubleNegations(f) == f;
    assert DistributeOr(f) == f;
  }

  /** ¬¬A for an atom A becomes A, but only one double negation is removed from ¬¬¬¬A. */
  lemma DoubleNegationExamples(a: string)
    ensures EliminateDoubleNegations(Neg(Neg(Atom(a)))) == Atom(a)
    ensures EliminateDoubleNegations(Neg(Neg(Neg(Neg(Atom(a)))))) == Neg(Neg(Atom(a)))
  {
    assert EliminateDoubleNegations(Atom(a)) == Atom(a);
    assert EliminateDoubleNegations(Neg(Atom(a))) == Neg(Atom(a));
  }

  /** ¬¬(A ∧ B) is descended into, not rewritten at the top, and ends as ¬(¬A ∨ ¬B). */
  lemma DeMorganUnderDoubleNegation(a: string, b: string)
    ensures ApplyDeMorgan(Neg(Neg(Bin(And, Atom(a), Atom(b)))))
         == Neg(Bin(Or, Neg(Atom(a)), Neg(Atom(b))))
  {
    assert ApplyDeMorgan(Neg(Atom(a))) == Neg(Atom(a));
    assert ApplyDeMorgan(Neg(Atom(b))) == Neg(Atom(b));
    assert ApplyDeMorgan(Neg(Bin(And, Atom(a), Atom(b)))) == Bin(Or, Neg(Atom(a)), Neg(Atom(b)));
  }

  /** ¬A ∨ (B ∧ C) is left as it is: the left side is neither an atom nor a conjunction. */
  lemma NoDistributionOverNegatedLeft(a: string, b: string, c: string)
    ensures DistributeOr(Bin(Or, Neg(Atom(a)), Bin(And, Atom(b), Atom(c))))
         == Bin(Or, Neg(Atom(a)), Bin(And, Atom(b), Atom(c)))
  {
    assert DistributeOr(Neg(Atom(a))) == Neg(Atom(a));
    assert DistributeOr(Bin(And, Atom(b), Atom(c))) == Bin(And, Atom(b), Atom(c));
  }
}
