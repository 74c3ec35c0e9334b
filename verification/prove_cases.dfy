/**
 * The remaining `prove` cases of the repository's tests, each carried from the
 * asserted formulas through `facts`, the start clauses and the answer of
 * `Prove`. The formulas are written as the trees `parse` gives for the test
 * strings.
 */
module ProveCases {
  import opened Wrappers
  import opened Types
  import opened Engine
  import opened Scenarios
  import opened Semantics
  import Normalizer

  const E := Atom("E")

  /** A one-letter atom name is negated by adding the mark, and its negation by removing it. */
  lemma NegateName(x: string)
    requires |x| == 1 && x[0] != NegationMark
    ensures Negate(x) == "¬" + x && Negate("¬" + x) == x
  {
    assert ("¬" + x)[1..] == x;
  }

  lemma NegateNames()
    ensures Negate("A") == "¬A" && Negate("¬A") == "A"
    ensures Negate("B") == "¬B" && Negate("¬B") == "B"
    ensures Negate("C") == "¬C" && Negate("¬C") == "C"
    ensures Negate("D") == "¬D" && Negate("¬D") == "D"
    ensures Negate("E") == "¬E" && Negate("¬E") == "E"
  {
    NegateName("A");
    NegateName("B");
    NegateName("C");
    NegateName("D");
    NegateName("E");
  }

  /** A negated atom contributes the one literal made of the mark and its name. */
  lemma NegatedLiteral(x: string)
    ensures ExtractLiterals(Neg(Atom(x))) == Success({"¬" + x})
  {
    assert Render(Neg(Atom(x))) == Success("¬" + x);
  }

  lemma NegatedLiterals()
    ensures ExtractLiterals(Neg(A)) == Success({"¬A"})
    ensures ExtractLiterals(Neg(B)) == Success({"¬B"})
    ensures ExtractLiterals(Neg(C)) == Success({"¬C"})
    ensures ExtractLiterals(Neg(D)) == Success({"¬D"})
    ensures ExtractLiterals(Neg(E)) == Success({"¬E"})
  {
    NegatedLiteral("A");
    NegatedLiteral("B");
    NegatedLiteral("C");
    NegatedLiteral("D");
    NegatedLiteral("E");
    assert "¬" + "A" == "¬A" && "¬" + "B" == "¬B" && "¬" + "C" == "¬C";
    assert "¬" + "D" == "¬D" && "¬" + "E" == "¬E";
  }

  /** The literal sets of four formulas, in order. */
  lemma ExtractFour(fs: seq<Expr>, cs: seq<Clause>)
    requires |fs| == 4 && |cs| == 4
    requires forall i | 0 <= i < 4 :: ExtractLiterals(fs[i]) == Success(cs[i])
    ensures ExtractAll(fs) == Success(cs)
  {
    var r := ExtractAll(fs);
    assert r.Success? && |r.value| == 4;
    assert r.value == cs;
  }

  /** The literal sets of six formulas, in order. */
  lemma ExtractSix(fs: seq<Expr>, cs: seq<Clause>)
    requires |fs| == 6 && |cs| == 6
    requires forall i | 0 <= i < 6 :: ExtractLiterals(fs[i]) == Success(cs[i])
    ensures ExtractAll(fs) == Success(cs)
  {
    var r := ExtractAll(fs);
    assert r.Success? && |r.value| == 6;
    assert r.value == cs;
  }

  /** A formula that normalizes to a non-conjunction is stored as that one clause formula. */
  lemma FactsSingle(kb: KnowledgeBase, e: Expr, f: Expr)
    requires Normalizer.ToCNF(e) == f && !IsConjunction(f)
    ensures Facts(kb, [e]).clauses == kb.clauses + [f]
  {
    FactsOne(kb, e);
    CollectSingle(f);
  }

  /** A goal whose negation normalizes to a non-conjunction starts the refutation as that one clause formula. */
  lemma StartSingle(kb: KnowledgeBase, goal: Expr, f: Expr)
    requires Normalizer.ToCNF(Neg(goal)) == f && !IsConjunction(f)
    ensures StartFormulas(kb, goal) == kb.clauses + [f]
  {
    CollectSingle(f);
  }

  /** Storing a formula that normalizes to a conjunction of two clause formulas appends both. */
  lemma FactsPair(kb: KnowledgeBase, e: Expr, l: Expr, r: Expr)
    requires Normalizer.ToCNF(e) == Bin(And, l, r) && !IsConjunction(l) && !IsConjunction(r)
    ensures Facts(kb, [e]).clauses == kb.clauses + [l, r]
  {
    FactsOne(kb, e);
    CollectPair(l, r);
  }

  /** Storing two formulas in one call is storing them one after the other. */
  lemma FactsTwo(kb: KnowledgeBase, x: Expr, y: Expr)
    ensures Facts(kb, [x, y]) == Facts(Facts(kb, [x]), [y])
  {
    FactsAppend(kb, [x], [y]);
    assert [x] + [y] == [x, y];
  }

  /** Storing three formulas in one call is storing them one after the other. */
  lemma FactsThree(kb: KnowledgeBase, x: Expr, y: Expr, z: Expr)
    ensures Facts(kb, [x, y, z]) == Facts(Facts(Facts(kb, [x]), [y]), [z])
  {
    FactsAppend(kb, [x], [y, z]);
    assert [x] + [y, z] == [x, y, z];
    FactsTwo(Facts(kb, [x]), y, z);
  }

  /** A start list is a derivation of itself. */
  lemma DerivationStart(init: seq<Clause>)
    ensures Derivation(init, init)
  {
  }

  /** A new, non-empty, non-tautological resolvent of two held clauses extends a derivation. */
  lemma DerivationStep(init: seq<Clause>, cs: seq<Clause>, i: nat, j: nat)
    requires Derivation(init, cs) && i < j < |cs|
    requires Resolve(cs[i], cs[j]) != {} && !IsTautology(Resolve(cs[i], cs[j]))
    requires Resolve(cs[i], cs[j]) !in cs
    ensures Derivation(init, cs + [Resolve(cs[i], cs[j])])
  {
    var ds := cs + [Resolve(cs[i], cs[j])];
    forall k | |init| <= k < |ds|
      ensures DerivedAt(ds, k)
    {
      assert ds[..k] <= ds[..|cs|] == cs;
      if k < |cs| {
        assert DerivedAt(cs, k);
        var p, q :| 0 <= p < q < k && cs[k] == Resolve(cs[p], cs[q]);
        assert ds[k] == Resolve(ds[p], ds[q]);
      } else {
        assert ds[k] == Resolve(ds[i], ds[j]);
      }
    }
  }

  /** A derivation holding two clauses that resolve to the empty clause shows its start refutable. */
  lemma RefutedBy(init: seq<Clause>, cs: seq<Clause>, i: nat, j: nat)
    requires Derivation(init, cs) && i < j < |cs| && Resolve(cs[i], cs[j]) == {}
    ensures Refutable(init)
  {
    assert ResolvesToEmpty(cs);
  }

  // ---------------------------------------------------------------------
  // From A, prove A; and from ¬¬A, prove A.

  const SelfClauses: seq<Clause> := [{"A"}, {"¬A"}]

  lemma SelfStart(kb: KnowledgeBase)
    requires kb.clauses == [A]
    ensures StartClauses(kb, A) == Success(SelfClauses)
  {
    NegatedGoal("A");
    StartSingle(kb, A, Neg(A));
    assert StartFormulas(kb, A) == [A, Neg(A)];
    AtomLiterals();
    NegatedLiterals();
    ExtractTwo(A, Neg(A), {"A"}, {"¬A"});
  }

  lemma SelfCut()
    ensures Resolve({"A"}, {"¬A"}) == {}
  {
    NegateNames();
  }

  /** A and ¬A resolve to the empty clause at once. */
  lemma SelfRefutable()
    ensures Refutable(SelfClauses)
  {
    SelfCut();
    DerivationStart(SelfClauses);
    RefutedBy(SelfClauses, SelfClauses, 0, 1);
  }

  /** From A, `prove` answers true for A. */
  method ProveFromItself() returns (r: Result<bool, RenderError>)
    ensures r == Success(true)
  {
    var kb := Facts(NoFacts, [A]);
    FactsSingle(NoFacts, A, A);
    SelfStart(kb);
    SelfRefutable();
    r := Prove(kb, A);
  }

  /** A doubly negated atom normalizes to the atom. */
  lemma DoubleNegationNormal(x: string)
    ensures Normalizer.ToCNF(Neg(Neg(Atom(x)))) == Atom(x)
  {
    var e := Neg(Neg(Atom(x)));
    assert Normalizer.RemoveBijections(e) == e;
    assert Normalizer.ReplaceImplications(e) == e;
    assert Normalizer.ApplyDeMorgan(Neg(Atom(x))) == Neg(Atom(x));
    assert Normalizer.ApplyDeMorgan(e) == e;
    assert Normalizer.EliminateDoubleNegations(e) == Atom(x);
  }

  /** From ¬¬A, `prove` answers true for A. */
  method ProveFromDoubleNegation() returns (r: Result<bool, RenderError>)
    ensures r == Success(true)
  {
    var kb := Facts(NoFacts, [Neg(Neg(A))]);
    DoubleNegationNormal("A");
    FactsSingle(NoFacts, Neg(Neg(A)), A);
    SelfStart(kb);
    SelfRefutable();
    r := Prove(kb, A);
  }

  // ---------------------------------------------------------------------
  // From A → B and B → C, prove A → B.

  const ChainFacts := Facts(NoFacts, [Bin(Impl, A, B), Bin(Impl, B, C)])

  const ChainClauses: seq<Clause> := [{"¬A", "B"}, {"¬B", "C"}, {"A"}, {"¬B"}]

  lemma ChainDatabase()
    ensures ChainFacts.clauses == [Bin(Or, Neg(A), B), Bin(Or, Neg(B), C)]
  {
    Normalizer.ToCNFOfImplication("A", "B");
    Normalizer.ToCNFOfImplication("B", "C");
    FactsTwo(NoFacts, Bin(Impl, A, B), Bin(Impl, B, C));
    FactsSingle(NoFacts, Bin(Impl, A, B), Bin(Or, Neg(A), B));
    FactsSingle(Facts(NoFacts, [Bin(Impl, A, B)]), Bin(Impl, B, C), Bin(Or, Neg(B), C));
  }

  /** The negated goal ¬(A → B) normalizes to A ∧ ¬B. */
  lemma NegatedImplicationNormal()
    ensures Normalizer.ToCNF(Neg(Bin(Impl, A, B))) == Bin(And, A, Neg(B))
  {
    var e := Neg(Bin(Impl, A, B));
    var f := Neg(Bin(Or, Neg(A), B));
    assert Normalizer.RemoveBijections(e) == e;
    assert Normalizer.ReplaceImplications(e) == f;
    assert Normalizer.ApplyDeMorgan(Neg(Neg(A))) == Neg(Neg(A));
    assert Normalizer.ApplyDeMorgan(Neg(B)) == Neg(B);
    assert Normalizer.ApplyDeMorgan(f) == Bin(And, Neg(Neg(A)), Neg(B));
    assert Normalizer.EliminateDoubleNegations(Bin(And, Neg(Neg(A)), Neg(B))) == Bin(And, A, Neg(B));
    assert Normalizer.DistributeOr(Bin(And, A, Neg(B))) == Bin(And, A, Neg(B));
  }

  /** The start formulas: the two stored clauses, then the conjuncts A and ¬B of the negated goal. */
  lemma ChainFormulas(kb: KnowledgeBase)
    requires kb.clauses == [Bin(Or, Neg(A), B), Bin(Or, Neg(B), C)]
    ensures StartFormulas(kb, Bin(Impl, A, B)) == [Bin(Or, Neg(A), B), Bin(Or, Neg(B), C), A, Neg(B)]
  {
    NegatedImplicationNormal();
    CollectPair(A, Neg(B));
  }

  lemma ChainLiterals()
    ensures ExtractAll([Bin(Or, Neg(A), B), Bin(Or, Neg(B), C), A, Neg(B)]) == Success(ChainClauses)
  {
    AtomLiterals();
    NegatedLiterals();
    DisjunctionLiterals(Neg(A), B);
    DisjunctionLiterals(Neg(B), C);
    assert {"¬A"} + {"B"} == {"¬A", "B"};
    assert {"¬B"} + {"C"} == {"¬B", "C"};
    ExtractFour([Bin(Or, Neg(A), B), Bin(Or, Neg(B), C), A, Neg(B)], ChainClauses);
  }

  lemma ChainStart()
    ensures StartClauses(ChainFacts, Bin(Impl, A, B)) == Success(ChainClauses)
  {
    ChainDatabase();
    ChainFormulas(ChainFacts);
    ChainLiterals();
  }

  lemma ChainCuts()
    ensures Resolve({"¬A", "B"}, {"A"}) == {"B"}
    ensures Resolve({"¬B"}, {"B"}) == {}
  {
    NegateNames();
  }

  /** ¬A ∨ B with A gives B, which then resolves with ¬B to the empty clause. */
  lemma ChainRefutable()
    ensures Refutable(ChainClauses)
  {
    var init := ChainClauses;
    ChainCuts();
    DerivationStart(init);
    assert !IsTautology({"B"}) && {"B"} !in init;
    DerivationStep(init, init, 0, 2);
    RefutedBy(init, init + [{"B"}], 3, 4);
  }

  /** From A → B and B → C, `prove` answers true for A → B. */
  method ProveFromChain() returns (r: Result<bool, RenderError>)
    ensures r == Success(true)
  {
    ChainStart();
    ChainRefutable();
    r := Prove(ChainFacts, Bin(Impl, A, B));
  }

  // ---------------------------------------------------------------------
  // From A → B, C is not proved.

  const UnrelatedFacts := Facts(NoFacts, [Bin(Impl, A, B)])

  const UnrelatedClauses: seq<Clause> := [{"¬A", "B"}, {"¬C"}]

  lemma UnrelatedFormulas(kb: KnowledgeBase)
    requires kb.clauses == [Bin(Or, Neg(A), B)]
    ensures StartFormulas(kb, C) == [Bin(Or, Neg(A), B), Neg(C)]
  {
    NegatedGoal("C");
    StartSingle(kb, C, Neg(C));
  }

  lemma UnrelatedLiterals()
    ensures ExtractAll([Bin(Or, Neg(A), B), Neg(C)]) == Success(UnrelatedClauses)
  {
    AtomLiterals();
    NegatedLiterals();
    DisjunctionLiterals(Neg(A), B);
    assert {"¬A"} + {"B"} == {"¬A", "B"};
    ExtractTwo(Bin(Or, Neg(A), B), Neg(C), {"¬A", "B"}, {"¬C"});
  }

  lemma UnrelatedStart()
    ensures StartClauses(UnrelatedFacts, C) == Success(UnrelatedClauses)
  {
    Normalizer.ToCNFOfImplication("A", "B");
    FactsSingle(NoFacts, Bin(Impl, A, B), Bin(Or, Neg(A), B));
    UnrelatedFormulas(UnrelatedFacts);
    UnrelatedLiterals();
  }

  /** ¬A ∨ B and ¬C share no complementary pair, so each resolves with the other, or with their union, to the union. */
  lemma UnrelatedCuts()
    ensures Resolve({"¬A", "B"}, {"¬C"}) == {"¬A", "B", "¬C"}
    ensures Resolve({"¬A", "B"}, {"¬A", "B", "¬C"}) == {"¬A", "B", "¬C"}
    ensures Resolve({"¬C"}, {"¬A", "B", "¬C"}) == {"¬A", "B", "¬C"}
    ensures !IsTautology({"¬A", "B", "¬C"})
  {
    NegateNames();
    var big: Clause := {"¬A", "B", "¬C"};
    assert "¬A" != "¬C" && "B" != "¬C" && "¬A" != "B";
    assert "A" !in big && "¬B" !in big && "C" !in big;
    assert forall l | l in big :: Negate(l) !in big;
  }

  /** The one resolvent ¬A ∨ B ∨ ¬C is added, after which every pair resolves to a clause already held. */
  lemma UnrelatedSaturated()
    ensures Derivation(UnrelatedClauses, UnrelatedClauses + [{"¬A", "B", "¬C"}])
    ensures Saturated(UnrelatedClauses + [{"¬A", "B", "¬C"}])
  {
    var init := UnrelatedClauses;
    var cs := init + [{"¬A", "B", "¬C"}];
    UnrelatedCuts();
    DerivationStart(init);
    DerivationStep(init, init, 0, 1);
    assert Settled(cs, cs[0], cs[1]) && Settled(cs, cs[0], cs[2]) && Settled(cs, cs[1], cs[2]);
  }

  /** From A → B, `prove` answers false for C. */
  method ProveUnrelated() returns (r: Result<bool, RenderError>)
    ensures r == Success(false)
  {
    UnrelatedStart();
    UnrelatedSaturated();
    SaturatedNotRefutable(UnrelatedClauses, UnrelatedClauses + [{"¬A", "B", "¬C"}]);
    r := Prove(UnrelatedFacts, C);
  }

  // ---------------------------------------------------------------------
  // From A ∨ (B ∧ C), prove A ∨ (B ∧ C).

  const Mixed := Bin(Or, A, Bin(And, B, C))

  const MixedFacts := Facts(NoFacts, [Mixed])

  const MixedClauses: seq<Clause> := [{"A", "B"}, {"A", "C"}, {"¬A"}, {"¬B", "¬C"}]

  /** A ∨ (B ∧ C) is distributed into (A ∨ B) ∧ (A ∨ C). */
  lemma MixedNormal()
    ensures Normalizer.ToCNF(Mixed) == Bin(And, Bin(Or, A, B), Bin(Or, A, C))
  {
    assert Normalizer.RemoveBijections(Mixed) == Mixed;
    assert Normalizer.ReplaceImplications(Mixed) == Mixed;
    assert Normalizer.ApplyDeMorgan(Mixed) == Mixed;
    assert Normalizer.EliminateDoubleNegations(Mixed) == Mixed;
    assert Normalizer.DistributeOr(Bin(Or, A, B)) == Bin(Or, A, B);
    assert Normalizer.DistributeOr(Bin(Or, A, C)) == Bin(Or, A, C);
  }

  /** The negation ¬(A ∨ (B ∧ C)) becomes ¬A ∧ (¬B ∨ ¬C). */
  lemma NegatedMixedNormal()
    ensures Normalizer.ToCNF(Neg(Mixed)) == Bin(And, Neg(A), Bin(Or, Neg(B), Neg(C)))
  {
    var e := Neg(Mixed);
    var f := Bin(And, Neg(A), Bin(Or, Neg(B), Neg(C)));
    assert Normalizer.RemoveBijections(e) == e;
    assert Normalizer.ReplaceImplications(e) == e;
    assert Normalizer.ApplyDeMorgan(Neg(A)) == Neg(A);
    assert Normalizer.ApplyDeMorgan(Neg(Bin(And, B, C))) == Bin(Or, Neg(B), Neg(C));
    assert Normalizer.ApplyDeMorgan(e) == f;
    assert Normalizer.EliminateDoubleNegations(f) == f;
    assert Normalizer.DistributeOr(Bin(Or, Neg(B), Neg(C))) == Bin(Or, Neg(B), Neg(C));
    assert Normalizer.DistributeOr(f) == f;
  }

  lemma MixedDatabase()
    ensures MixedFacts.clauses == [Bin(Or, A, B), Bin(Or, A, C)]
  {
    MixedNormal();
    FactsPair(NoFacts, Mixed, Bin(Or, A, B), Bin(Or, A, C));
  }

  lemma MixedFormulas(kb: KnowledgeBase)
    requires kb.clauses == [Bin(Or, A, B), Bin(Or, A, C)]
    ensures StartFormulas(kb, Mixed) == [Bin(Or, A, B), Bin(Or, A, C), Neg(A), Bin(Or, Neg(B), Neg(C))]
  {
    NegatedMixedNormal();
    CollectPair(Neg(A), Bin(Or, Neg(B), Neg(C)));
  }

  lemma MixedLiterals()
    ensures ExtractAll([Bin(Or, A, B), Bin(Or, A, C), Neg(A), Bin(Or, Neg(B), Neg(C))]) == Success(MixedClauses)
  {
    AtomLiterals();
    NegatedLiterals();
    assert ExtractLiterals(C) == Success({"C"});
    DisjunctionLiterals(A, B);
    DisjunctionLiterals(A, C);
    DisjunctionLiterals(Neg(B), Neg(C));
    assert {"A"} + {"B"} == {"A", "B"} && {"A"} + {"C"} == {"A", "C"};
    assert {"¬B"} + {"¬C"} == {"¬B", "¬C"};
    ExtractFour([Bin(Or, A, B), Bin(Or, A, C), Neg(A), Bin(Or, Neg(B), Neg(C))], MixedClauses);
  }

  lemma MixedCuts()
    ensures Resolve({"A", "B"}, {"¬A"}) == {"B"}
    ensures Resolve({"A", "C"}, {"¬A"}) == {"C"}
    ensures Resolve({"¬B", "¬C"}, {"B"}) == {"¬C"}
    ensures Resolve({"C"}, {"¬C"}) == {}
  {
    NegateNames();
    assert "B" != "¬C" && "C" != "¬C" && "B" != "C";
  }

  /** ¬A cuts A from both stored clauses, leaving B and C; B cuts ¬B ∨ ¬C down to ¬C, which meets C. */
  lemma MixedRefutable()
    ensures Refutable(MixedClauses)
  {
    var init := MixedClauses;
    MixedCuts();
    DerivationStart(init);
    assert !IsTautology({"B"}) && {"B"} !in init;
    DerivationStep(init, init, 0, 2);
    var cs1 := init + [{"B"}];
    assert !IsTautology({"C"}) && {"C"} !in cs1;
    DerivationStep(init, cs1, 1, 2);
    var cs2 := cs1 + [{"C"}];
    assert !IsTautology({"¬C"}) && {"¬C"} !in cs2;
    DerivationStep(init, cs2, 3, 4);
    RefutedBy(init, cs2 + [{"¬C"}], 5, 6);
  }

  /** From A ∨ (B ∧ C), `prove` answers true for the same formula. */
  method ProveFromMixed() returns (r: Result<bool, RenderError>)
    ensures r == Success(true)
  {
    MixedDatabase();
    MixedFormulas(MixedFacts);
    MixedLiterals();
    MixedRefutable();
    r := Prove(MixedFacts, Mixed);
  }

  // ---------------------------------------------------------------------
  // From (A ∨ (B ∧ C)) → (D ∨ ¬E), A ∧ C and ¬D, prove ¬E.

  const Rule := Bin(Impl, Mixed, Bin(Or, D, Neg(E)))

  const RuleFacts := Facts(NoFacts, [Rule, Bin(And, A, C), Neg(D)])

  /** The two clause formulas the rule normalizes to. */
  const RuleLeft := Bin(Or, Neg(A), Bin(Or, D, Neg(E)))
  const RuleRight := Bin(Or, Bin(Or, Neg(B), Neg(C)), Bin(Or, D, Neg(E)))

  const RuleClauses: seq<Clause> := [{"¬A", "D", "¬E"}, {"¬B", "¬C", "D", "¬E"}, {"A"}, {"C"}, {"¬D"}, {"E"}]

  /** The rule holds no ↔, and its → is replaced by ¬(A ∨ (B ∧ C)) ∨ (D ∨ ¬E). */
  lemma RuleReplaced()
    ensures Normalizer.ReplaceImplications(Normalizer.RemoveBijections(Rule)) == Bin(Or, Neg(Mixed), Bin(Or, D, Neg(E)))
  {
    assert Normalizer.RemoveBijections(Rule) == Rule;
  }

  /** After → is replaced and De Morgan applied, the rule is (¬A ∧ (¬B ∨ ¬C)) ∨ (D ∨ ¬E). */
  lemma RuleDeMorgan()
    ensures Normalizer.ApplyDeMorgan(Normalizer.ReplaceImplications(Normalizer.RemoveBijections(Rule))) ==
      Bin(Or, Bin(And, Neg(A), Bin(Or, Neg(B), Neg(C))), Bin(Or, D, Neg(E)))
  {
    var right := Bin(Or, D, Neg(E));
    RuleReplaced();
    assert Normalizer.ApplyDeMorgan(Neg(A)) == Neg(A);
    assert Normalizer.ApplyDeMorgan(Neg(Bin(And, B, C))) == Bin(Or, Neg(B), Neg(C));
    assert Normalizer.ApplyDeMorgan(Neg(Mixed)) == Bin(And, Neg(A), Bin(Or, Neg(B), Neg(C)));
    assert Normalizer.ApplyDeMorgan(Neg(E)) == Neg(E);
    assert Normalizer.ApplyDeMorgan(right) == right;
  }

  /** The two rule clauses are disjunctions of literals, which distribution leaves alone. */
  lemma RuleClausesDistributed()
    ensures Normalizer.DistributeOr(RuleLeft) == RuleLeft
    ensures Normalizer.DistributeOr(RuleRight) == RuleRight
  {
    var right := Bin(Or, D, Neg(E));
    assert Normalizer.DistributeOr(right) == right;
    assert Normalizer.DistributeOr(Neg(A)) == Neg(A);
    assert Normalizer.DistributeOr(Bin(Or, Neg(B), Neg(C))) == Bin(Or, Neg(B), Neg(C));
  }

  /** Distribution splits the disjunction over the conjunction on its left into the two rule clauses. */
  lemma RuleDistributed()
    ensures var g := Bin(Or, Bin(And, Neg(A), Bin(Or, Neg(B), Neg(C))), Bin(Or, D, Neg(E)));
      Normalizer.DistributeOr(Normalizer.EliminateDoubleNegations(g)) == Bin(And, RuleLeft, RuleRight)
  {
    var g := Bin(Or, Bin(And, Neg(A), Bin(Or, Neg(B), Neg(C))), Bin(Or, D, Neg(E)));
    assert Normalizer.EliminateDoubleNegations(g) == g;
    RuleClausesDistributed();
    assert Normalizer.DistributeOr(g) == Bin(And, RuleLeft, RuleRight);
  }

  /** The rule normalizes to the conjunction of its two clause formulas. */
  lemma RuleNormal()
    ensures Normalizer.ToCNF(Rule) == Bin(And, RuleLeft, RuleRight)
  {
    RuleDeMorgan();
    RuleDistributed();
  }

  /** A conjunction of two atoms is already in normal form. */
  lemma ConjunctionNormal()
    ensures Normalizer.ToCNF(Bin(And, A, C)) == Bin(And, A, C)
  {
  }

  lemma RuleStored()
    ensures Facts(NoFacts, [Rule]).clauses == [RuleLeft, RuleRight]
  {
    RuleNormal();
    FactsPair(NoFacts, Rule, RuleLeft, RuleRight);
  }

  lemma ConjunctionStored(kb: KnowledgeBase)
    requires kb.clauses == [RuleLeft, RuleRight]
    ensures Facts(kb, [Bin(And, A, C)]).clauses == [RuleLeft, RuleRight, A, C]
  {
    ConjunctionNormal();
    FactsPair(kb, Bin(And, A, C), A, C);
  }

  lemma NegationStored(kb: KnowledgeBase)
    requires kb.clauses == [RuleLeft, RuleRight, A, C]
    ensures Facts(kb, [Neg(D)]).clauses == [RuleLeft, RuleRight, A, C, Neg(D)]
  {
    NegatedGoal("D");
    FactsSingle(kb, Neg(D), Neg(D));
  }

  lemma RuleDatabase()
    ensures RuleFacts.clauses == [RuleLeft, RuleRight, A, C, Neg(D)]
  {
    FactsThree(NoFacts, Rule, Bin(And, A, C), Neg(D));
    var f1 := Facts(NoFacts, [Rule]);
    RuleStored();
    ConjunctionStored(f1);
    NegationStored(Facts(f1, [Bin(And, A, C)]));
  }

  lemma RuleFormulas(kb: KnowledgeBase)
    requires kb.clauses == [RuleLeft, RuleRight, A, C, Neg(D)]
    ensures StartFormulas(kb, Neg(E)) == [RuleLeft, RuleRight, A, C, Neg(D), E]
  {
    DoubleNegationNormal("E");
    StartSingle(kb, Neg(E), E);
  }

  lemma RuleLiterals()
    ensures ExtractAll([RuleLeft, RuleRight, A, C, Neg(D), E]) == Success(RuleClauses)
  {
    AtomLiterals();
    NegatedLiterals();
    assert ExtractLiterals(C) == Success({"C"}) && ExtractLiterals(D) == Success({"D"});
    assert ExtractLiterals(E) == Success({"E"});
    DisjunctionLiterals(D, Neg(E));
    DisjunctionLiterals(Neg(A), Bin(Or, D, Neg(E)));
    DisjunctionLiterals(Neg(B), Neg(C));
    DisjunctionLiterals(Bin(Or, Neg(B), Neg(C)), Bin(Or, D, Neg(E)));
    assert {"¬A"} + ({"D"} + {"¬E"}) == {"¬A", "D", "¬E"};
    assert ({"¬B"} + {"¬C"}) + ({"D"} + {"¬E"}) == {"¬B", "¬C", "D", "¬E"};
    ExtractSix([RuleLeft, RuleRight, A, C, Neg(D), E], RuleClauses);
  }

  lemma RuleCuts()
    ensures Resolve({"¬A", "D", "¬E"}, {"A"}) == {"D", "¬E"}
    ensures !IsTautology({"D", "¬E"})
    ensures Resolve({"¬D"}, {"D", "¬E"}) == {"¬E"}
    ensures Resolve({"E"}, {"¬E"}) == {}
  {
    NegateNames();
    assert "D" != "¬E" && "¬A" != "D" && "¬A" != "¬E";
    assert forall l | l in {"D", "¬E"} :: Negate(l) !in {"D", "¬E"};
  }

  /** A cuts ¬A from the first rule clause, leaving D ∨ ¬E; ¬D cuts that to ¬E, which meets E. */
  lemma RuleRefutable()
    ensures Refutable(RuleClauses)
  {
    var init := RuleClauses;
    RuleCuts();
    DerivationStart(init);
    assert {"D", "¬E"} !in init;
    DerivationStep(init, init, 0, 2);
    var cs1 := init + [{"D", "¬E"}];
    assert !IsTautology({"¬E"}) && {"¬E"} !in cs1;
    DerivationStep(init, cs1, 4, 6);
    RefutedBy(init, cs1 + [{"¬E"}], 5, 7);
  }

  /** From the rule, A ∧ C and ¬D, `prove` answers true for ¬E. */
  method ProveFromRule() returns (r: Result<bool, RenderError>)
    ensures r == Success(true)
  {
    RuleDatabase();
    RuleFormulas(RuleFacts);
    RuleLiterals();
    RuleRefutable();
    r := Prove(RuleFacts, Neg(E));
  }

  // ---------------------------------------------------------------------
  // Resolution on two literals at once.

  /**
   * A ∨ B and ¬A ∨ ¬B resolve to the empty clause, so they are refutable,
   * although A true and B false satisfies both: `prove` is not sound.
   */
  lemma SimultaneousResolution()
    ensures Resolve({"A", "B"}, {"¬A", "¬B"}) == {}
    ensures Refutable([{"A", "B"}, {"¬A", "¬B"}])
    ensures var v: Valuation := x => x == "A";
      LiteralHolds("A", v) && LiteralHolds("¬B", v)
  {
    NegateNames();
    var cs: seq<Clause> := [{"A", "B"}, {"¬A", "¬B"}];
    assert Resolve(cs[0], cs[1]) == {};
    DerivationStart(cs);
    RefutedBy(cs, cs, 0, 1);
    assert ("¬B")[1..] == "B";
  }
}
