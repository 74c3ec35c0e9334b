/**
 * Worked cases of the knowledge base and of `prove`, on concrete formulas over
 * the atoms A, B, C and D.
 */
module Scenarios {
  import opened Wrappers
  import opened Types
  import opened Engine
  import Normalizer

  const A := Atom("A")
  const B := Atom("B")
  const C := Atom("C")
  const D := Atom("D")

  const NoFacts := KnowledgeBase([])

  /** An implication is stored as the single clause ¬A ∨ B. */
  lemma FactsOfImplication()
    ensures Facts(NoFacts, [Bin(Impl, A, B)]).clauses == [Bin(Or, Neg(A), B)]
  {
  }

  /** A conjunction is stored as its two conjuncts. */
  lemma FactsOfConjunction()
    ensures Facts(NoFacts, [Bin(And, C, D)]).clauses == [C, D]
  {
  }

  /** An equivalence is stored as the two clauses ¬A ∨ B and ¬B ∨ A. */
  lemma FactsOfEquivalence()
    ensures Facts(NoFacts, [Bin(Eqv, A, B)]).clauses == [Bin(Or, Neg(A), B), Bin(Or, Neg(B), A)]
  {
    var left := Bin(Or, Neg(A), B);
    var right := Bin(Or, Neg(B), A);
    Normalizer.ToCNFOfEquivalence("A", "B");
    CollectPair(left, right);
    FactsOne(NoFacts, Bin(Eqv, A, B));
    assert NoFacts.clauses + [left, right] == [left, right];
  }

  /** A formula that is not a conjunction is its only conjunct. */
  lemma CollectSingle(e: Expr)
    requires !IsConjunction(e)
    ensures CollectConjunctions(e) == [e]
  {
  }

  /** A conjunction of two non-conjunctions has exactly those two conjuncts. */
  lemma CollectPair(l: Expr, r: Expr)
    requires !IsConjunction(l) && !IsConjunction(r)
    ensures CollectConjunctions(Bin(And, l, r)) == [l, r]
  {
    CollectSingle(l);
    CollectSingle(r);
  }

  /** Several formulas are stored in the order given. */
  lemma FactsInOrder()
    ensures Facts(NoFacts, [A, B]).clauses == [A, B]
  {
    assert [A, B][1..] == [B];
    assert CollectConjunctions(Normalizer.ToCNF(A)) == [A];
    assert CollectConjunctions(Normalizer.ToCNF(B)) == [B];
    assert NoFacts.clauses + [A] == [A];
    assert Facts(NoFacts, [A, B]) == Facts(KnowledgeBase([A]), [B]);
    assert Facts(KnowledgeBase([A]), [B]) == Facts(KnowledgeBase([A, B]), []);
  }

  /** A negated atom contributes the literal made of the mark and its name. */
  lemma NegatedAtomLiterals()
    ensures ExtractLiterals(Neg(A)) == Success({"¬A"})
    ensures ExtractLiterals(Neg(B)) == Success({"¬B"})
  {
    assert "¬" + "A" == "¬A";
    assert "¬" + "B" == "¬B";
  }

  lemma AtomLiterals()
    ensures ExtractLiterals(A) == Success({"A"})
    ensures ExtractLiterals(B) == Success({"B"})
  {
  }

  /** The literals of a disjunction are those of its two sides. */
  lemma DisjunctionLiterals(l: Expr, r: Expr)
    requires ExtractLiterals(l).Success? && ExtractLiterals(r).Success?
    ensures ExtractLiterals(Bin(Or, l, r)) == Success(ExtractLiterals(l).value + ExtractLiterals(r).value)
  {
  }

  lemma NegateExamples()
    ensures Negate("A") == "¬A" && Negate("¬A") == "A"
    ensures Negate("B") == "¬B" && Negate("¬B") == "B"
  {
    assert "¬A"[1..] == "A";
    assert "¬B"[1..] == "B";
  }

  /** The database after asserting A → B and then A. */
  const ModusPonensFacts := Facts(NoFacts, [Bin(Impl, A, B), A])

  /** The clauses of A → B, of A, and of the negated goal B. */
  const ModusPonensClauses: seq<Clause> := [{"¬A", "B"}, {"A"}, {"¬B"}]

  /** The clauses of A ∨ ¬A and of the negated goal B. */
  const TautologyClauses: seq<Clause> := [{"A", "¬A"}, {"¬B"}]

  /** The negated goal ¬x is already in normal form and is one conjunct. */
  lemma NegatedGoal(x: string)
    ensures CollectConjunctions(Normalizer.ToCNF(Neg(Atom(x)))) == [Neg(Atom(x))]
  {
    var e := Neg(Atom(x));
    assert Normalizer.RemoveBijections(e) == e;
    assert Normalizer.ReplaceImplications(e) == e;
    assert Normalizer.ApplyDeMorgan(e) == e;
    assert Normalizer.EliminateDoubleNegations(e) == e;
    assert Normalizer.DistributeOr(e) == e;
  }

  /** The literal sets of three formulas, in order. */
  lemma ExtractThree(f0: Expr, f1: Expr, f2: Expr, c0: Clause, c1: Clause, c2: Clause)
    requires ExtractLiterals(f0) == Success(c0)
    requires ExtractLiterals(f1) == Success(c1)
    requires ExtractLiterals(f2) == Success(c2)
    ensures ExtractAll([f0, f1, f2]) == Success([c0, c1, c2])
  {
    var r := ExtractAll([f0, f1, f2]);
    assert r.Success? && |r.value| == 3;
    assert r.value == [c0, c1, c2];
  }

  /** The literal sets of two formulas, in order. */
  lemma ExtractTwo(f0: Expr, f1: Expr, c0: Clause, c1: Clause)
    requires ExtractLiterals(f0) == Success(c0)
    requires ExtractLiterals(f1) == Success(c1)
    ensures ExtractAll([f0, f1]) == Success([c0, c1])
  {
    var r := ExtractAll([f0, f1]);
    assert r.Success? && |r.value| == 2;
    assert r.value == [c0, c1];
  }

  lemma ModusPonensDatabase()
    ensures ModusPonensFacts.clauses == [Bin(Or, Neg(A), B), A]
  {
    var first := Bin(Or, Neg(A), B);
    assert Normalizer.ToCNF(Bin(Impl, A, B)) == first;
    CollectSingle(first);
    assert [Bin(Impl, A, B), A][1..] == [A];
    assert NoFacts.clauses + [first] == [first];
    assert CollectConjunctions(Normalizer.ToCNF(A)) == [A];
    assert ModusPonensFacts == Facts(KnowledgeBase([first]), [A]);
    assert Facts(KnowledgeBase([first]), [A]) == Facts(KnowledgeBase([first, A]), []);
  }

  lemma ModusPonensStart()
    ensures StartClauses(ModusPonensFacts, B) == Success(ModusPonensClauses)
  {
    ModusPonensDatabase();
    NegatedGoal("B");
    assert StartFormulas(ModusPonensFacts, B) == [Bin(Or, Neg(A), B), A, Neg(B)];
    NegatedAtomLiterals();
    AtomLiterals();
    DisjunctionLiterals(Neg(A), B);
    assert {"¬A"} + {"B"} == {"¬A", "B"};
    ExtractThree(Bin(Or, Neg(A), B), A, Neg(B), {"¬A", "B"}, {"A"}, {"¬B"});
  }

  /** Resolving ¬A ∨ B with A gives B, which then resolves with ¬B to the empty clause. */
  lemma ModusPonensRefutable()
    ensures Refutable(ModusPonensClauses)
  {
    var init := ModusPonensClauses;
    var cs := init + [{"B"}];
    NegateExamples();
    assert Resolve(cs[0], cs[1]) == {"B"};
    assert !IsTautology({"B"});
    assert "A" in cs[1] && "A" !in {"B"};
    assert "¬A" in cs[0] && "¬A" !in {"B"};
    assert "¬B" in cs[2] && "¬B" !in {"B"};
    assert {"B"} !in cs[..3];
    assert DerivedAt(cs, 3);
    assert Derivation(init, cs);
    assert Resolve(cs[2], cs[3]) == {};
    assert ResolvesToEmpty(cs);
  }

  /** From A → B and A, `prove` answers true for B. */
  method ProveModusPonens() returns (r: Result<bool, RenderError>)
    ensures r == Success(true)
  {
    ModusPonensStart();
    ModusPonensRefutable();
    r := Prove(ModusPonensFacts, B);
  }

  /** From an empty database nothing about A can be proved. */
  method ProveFromNothing() returns (r: Result<bool, RenderError>)
    ensures r == Success(false)
  {
    var init := [{"¬A"}];
    NegatedGoal("A");
    assert StartFormulas(NoFacts, A) == [Neg(A)];
    NegatedAtomLiterals();
    assert StartClauses(NoFacts, A).value == init;
    SaturatedNotRefutable(init, init);
    r := Prove(NoFacts, A);
  }

  /** The database holds A ∨ ¬A unchanged, and the negated goal follows it. */
  lemma TautologyFormulas()
    ensures StartFormulas(Facts(NoFacts, [Bin(Or, A, Neg(A))]), B) == [Bin(Or, A, Neg(A)), Neg(B)]
  {
    var fact := Bin(Or, A, Neg(A));
    assert Normalizer.ToCNF(fact) == fact;
    CollectSingle(fact);
    FactsOne(NoFacts, fact);
    assert NoFacts.clauses + [fact] == [fact];
    NegatedGoal("B");
  }

  lemma TautologyStart()
    ensures StartClauses(Facts(NoFacts, [Bin(Or, A, Neg(A))]), B) == Success(TautologyClauses)
  {
    var fact := Bin(Or, A, Neg(A));
    TautologyFormulas();
    NegatedAtomLiterals();
    AtomLiterals();
    DisjunctionLiterals(A, Neg(A));
    assert {"A"} + {"¬A"} == {"A", "¬A"};
    ExtractTwo(fact, Neg(B), {"A", "¬A"}, {"¬B"});
  }

  /** The only pair resolves to A ∨ ¬A ∨ ¬B, a tautology, so nothing is ever added. */
  lemma TautologySaturated()
    ensures Saturated(TautologyClauses)
  {
    var init := TautologyClauses;
    NegateExamples();
    assert "¬A"[1] != "¬B"[1];
    assert "A"[0] != "B"[0];
    assert "¬A" != "¬B" && "A" != "¬B" && "B" != "A" && "B" != "¬A";
    assert "A" in Resolve(init[0], init[1]) && "¬A" in Resolve(init[0], init[1]);
    assert Resolve(init[0], init[1]) != {};
    assert IsTautology(Resolve(init[0], init[1]));
  }

  /** A tautology says nothing about B. */
  method ProveFromTautology() returns (r: Result<bool, RenderError>)
    ensures r == Success(false)
  {
    TautologyStart();
    TautologySaturated();
    SaturatedNotRefutable(TautologyClauses, TautologyClauses);
    r := Prove(Facts(NoFacts, [Bin(Or, A, Neg(A))]), B);
  }
}
