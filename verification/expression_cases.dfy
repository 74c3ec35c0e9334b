/**
 * The repository's `Expression` tests, stated over the model: construction
 * from literals and from expressions, the argument-count and argument-type
 * errors, the rendering of negations, binary and compound nodes, the
 * rendering failure for an unknown action, and the deep copy.
 */
module ExpressionCases {
  import opened Wrappers
  import opened Types

  const A := Atom("A")
  const B := Atom("B")

  /** `new Expression(AND, ["A", "B"])` is a conjunction node with two arguments. */
  lemma FromLiterals()
    ensures Construct(Symbol(BinAction(And)), Some([Formula(A), Formula(B)])) == Success(Bin(And, A, B))
    ensures ActionOf(Bin(And, A, B)) == BinAction(And) && |ArgsOf(Bin(And, A, B))| == 2
  {
  }

  /** `new Expression(NOT, ["A"])` is a negation node with one argument. */
  lemma NegationFromLiteral()
    ensures Construct(Symbol(NotAction), Some([Formula(A)])) == Success(Neg(A))
    ensures ActionOf(Neg(A)) == NotAction && |ArgsOf(Neg(A))| == 1
  {
  }

  /** A conjunction built from the two negations ¬A and ¬B. */
  lemma FromExpressions()
    ensures Construct(Symbol(BinAction(And)), Some([Formula(Neg(A)), Formula(Neg(B))])) ==
      Success(Bin(And, Neg(A), Neg(B)))
  {
  }

  /** Three or one arguments for OR, two for NOT, and no array at all are each rejected. */
  lemma WrongArgumentCounts()
    ensures Construct(Symbol(BinAction(Or)), Some([Formula(A), Formula(B), Formula(Atom("C"))])) == Failure(ArityError)
    ensures Construct(Symbol(BinAction(Or)), Some([Formula(A)])) == Failure(ArityError)
    ensures Construct(Symbol(NotAction), Some([Formula(A), Formula(B)])) == Failure(ArityError)
    ensures Construct(Symbol(BinAction(Or)), None) == Failure(MissingArguments)
  {
  }

  /** Numbers as arguments, and a number as the action, are TypeErrors. */
  lemma WrongArgumentTypes()
    ensures Construct(Symbol(BinAction(Or)), Some([Invalid, Invalid])) == Failure(TypeError)
    ensures Construct(NonSymbol, Some([Formula(A)])) == Failure(TypeError)
  {
  }

  /** ¬A renders as `¬A`. */
  lemma RenderNegation()
    ensures Render(Neg(A)) == Success("¬A")
  {
    assert "¬" + "A" == "¬A";
  }

  /** A → B renders as `(A → B)`. */
  lemma RenderImplication()
    ensures Render(Bin(Impl, A, B)) == Success("(A → B)")
  {
    assert "(" + "A" + " " + "→" + " " + "B" + ")" == "(A → B)";
  }

  /** ¬A → ¬B renders as `(¬A → ¬B)`. */
  lemma RenderCompound()
    ensures Render(Bin(Impl, Neg(A), Neg(B))) == Success("(¬A → ¬B)")
  {
    RenderNegation();
    assert Render(Neg(B)) == Success("¬B") by {
      assert "¬" + "B" == "¬B";
    }
    assert "(" + "¬A" + " " + "→" + " " + "¬B" + ")" == "(¬A → ¬B)";
  }

  /** A node whose action is a fresh symbol has no rendering. */
  lemma RenderUnknownAction(id: nat)
    ensures Render(Bin(Other(id), A, B)) == Failure(NoMatchingSymbol)
  {
  }

  /** The copies of A → B and of ¬A → ¬B keep the action and the arguments. */
  lemma CloneCases()
    ensures Clone(Bin(Impl, A, B)) == Bin(Impl, A, B)
    ensures Clone(Bin(Impl, Neg(A), Neg(B))) == Bin(Impl, Neg(A), Neg(B))
  {
  }
}
