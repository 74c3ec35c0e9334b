/**
 * The parser on the inputs its own test suite uses: the ten operator
 * spellings, whitespace, precedence, parentheses, and both errors.
 */
module ParserCases {
  import opened Wrappers
  import opened Types
  import opened Tokenizer
  import opened Parser
  import opened ParserExamples

  const A := Atom("A")
  const B := Atom("B")
  const C := Atom("C")
  const D := Atom("D")

  lemma NamesOk()
    ensures IsName("A") && IsName("B") && IsName("C") && IsName("D")
  {
  }

  /** The arrow spelling of implication. */
  lemma ImplicationArrowCase()
    ensures Parse("A→B") == Success(Some(Bin(Impl, A, B)))
  {
    NamesOk();
    ParseBinary("A", "→", "B");
    assert "A" + "→" + "B" == "A→B";
  }

  /** The ASCII spelling of implication. */
  lemma ImplicationAsciiCase()
    ensures Parse("A->B") == Success(Some(Bin(Impl, A, B)))
  {
    NamesOk();
    ParseBinary("A", "->", "B");
    assert "A" + "->" + "B" == "A->B";
  }

  /** The ASCII spelling of equivalence. */
  lemma EquivalenceAsciiCase()
    ensures Parse("A<->B") == Success(Some(Bin(Eqv, A, B)))
  {
    NamesOk();
    ParseBinary("A", "<->", "B");
    assert "A" + "<->" + "B" == "A<->B";
  }

  /** The arrow spelling of equivalence. */
  lemma EquivalenceArrowCase()
    ensures Parse("A↔B") == Success(Some(Bin(Eqv, A, B)))
  {
    NamesOk();
    ParseBinary("A", "↔", "B");
    assert "A" + "↔" + "B" == "A↔B";
  }

  /** The ASCII spelling of conjunction. */
  lemma ConjunctionAsciiCase()
    ensures Parse("A&B") == Success(Some(Bin(And, A, B)))
  {
    NamesOk();
    ParseBinary("A", "&", "B");
    assert "A" + "&" + "B" == "A&B";
  }

  /** The logic symbol for conjunction. */
  lemma ConjunctionSymbolCase()
    ensures Parse("A∧B") == Success(Some(Bin(And, A, B)))
  {
    NamesOk();
    ParseBinary("A", "∧", "B");
    assert "A" + "∧" + "B" == "A∧B";
  }

  /** The ASCII spelling of disjunction. */
  lemma DisjunctionAsciiCase()
    ensures Parse("A|B") == Success(Some(Bin(Or, A, B)))
  {
    NamesOk();
    ParseBinary("A", "|", "B");
    assert "A" + "|" + "B" == "A|B";
  }

  /** The logic symbol for disjunction. */
  lemma DisjunctionSymbolCase()
    ensures Parse("A∨B") == Success(Some(Bin(Or, A, B)))
  {
    NamesOk();
    ParseBinary("A", "∨", "B");
    assert "A" + "∨" + "B" == "A∨B";
  }

  /** The ASCII spelling of negation. */
  lemma NegationAsciiCase()
    ensures Parse("!A") == Success(Some(Neg(A)))
  {
    NamesOk();
    ParseNegation("!", "A");
    assert "!" + "A" == "!A";
  }

  /** The logic symbol for negation. */
  lemma NegationSymbolCase()
    ensures Parse("¬A") == Success(Some(Neg(A)))
  {
    NamesOk();
    ParseNegation("¬", "A");
    assert "¬" + "A" == "¬A";
  }

  lemma StripExample()
    ensures Strip(" A\n &\tB") == "A&B"
  {
    var p1 := " A";
    var p2 := p1 + "\n " + "&";
    var p3 := p2 + "\t" + "B";
    assert Strip(p1) == "A" by {
      StripPiece([], " ", "A");
      assert [] + " " + "A" == p1;
    }
    assert Strip(p2) == "A&" by {
      StripPiece(p1, "\n ", "&");
    }
    assert Strip(p3) == "A&B" by {
      StripPiece(p2, "\t", "B");
    }
    assert p3 == " A\n &\tB";
  }

  /** Spaces, newlines and tabs around the tokens change nothing. */
  lemma WhitespaceCase()
    ensures Parse(" A\n &\tB") == Success(Some(Bin(And, A, B)))
  {
    StripExample();
    WhitespaceIgnored(" A\n &\tB");
    ConjunctionAsciiCase();
  }

  /** Negation binds tighter than either binary operator, and → weaker than ∨. */
  lemma PrecedenceCase()
    ensures Parse("!A->B|C") == Success(Some(Bin(Impl, Neg(A), Bin(Or, B, C))))
  {
    NamesOk();
    ParseNegatedChain("!", "A", "->", "B", "|", "C");
    assert "!" + "A" + "->" + "B" + "|" + "C" == "!A->B|C" by {
      assert "!" + "A" == "!A";
      assert "->" + "B" + "|" + "C" == "->B|C";
    }
  }

  /** ∧ and ∨ share a precedence level: the later one is applied first. */
  lemma ConjunctionDisjunctionCase()
    ensures Parse("A&B|C") == Success(Some(Bin(And, A, Bin(Or, B, C))))
  {
    NamesOk();
    ParseChain("A", "&", "B", "|", "C");
    assert "A" + "&" + "B" + "|" + "C" == "A&B|C";
  }

  /** ∨ and ∧ share a precedence level: the later one is applied first. */
  lemma DisjunctionConjunctionCase()
    ensures Parse("A|B&C") == Success(Some(Bin(Or, A, Bin(And, B, C))))
  {
    NamesOk();
    ParseChain("A", "|", "B", "&", "C");
    assert "A" + "|" + "B" + "&" + "C" == "A|B&C";
  }

  /** A chain of implications groups to the right. */
  lemma ImplicationChainCase()
    ensures Parse("A->B->C") == Success(Some(Bin(Impl, A, Bin(Impl, B, C))))
  {
    NamesOk();
    ParseChain("A", "->", "B", "->", "C");
    assert "A" + "->" + "B" + "->" + "C" == "A->B->C";
  }

  /** A tighter operator before a weaker one is applied first. */
  lemma TighterFirstCase()
    ensures Parse("A|B->C") == Success(Some(Bin(Impl, Bin(Or, A, B), C)))
  {
    NamesOk();
    ParseChain("A", "|", "B", "->", "C");
    assert "A" + "|" + "B" + "->" + "C" == "A|B->C";
  }

  /** Parentheses override precedence: each group is built before the implication joins them. */
  lemma CompoundCase()
    ensures Parse("(A&B)->(B|C)") == Success(Some(Bin(Impl, Bin(And, A, B), Bin(Or, B, C))))
  {
    NamesOk();
    CompoundSpellings();
    ParseJoinedGroups("A", "&", "B", "->", "B", "|", "C");
    CompoundText();
  }

  lemma CompoundSpellings()
    ensures BinaryOf("&") == Some(And) && BinaryOf("->") == Some(Impl) && BinaryOf("|") == Some(Or)
  {
  }

  lemma CompoundText()
    ensures GroupString("A", "&", "B") + "->" + GroupString("B", "|", "C") == "(A&B)->(B|C)"
  {
    assert GroupString("A", "&", "B") == "(A&B)";
    assert GroupString("B", "|", "C") == "(B|C)";
  }

  /** Text with one space on either side of its middle piece strips to the three pieces. */
  lemma StripTwoSpaces(p: string, m: string, q: string)
    requires forall i | 0 <= i < |p| :: !IsSpace(p[i])
    requires forall i | 0 <= i < |m| :: !IsSpace(m[i])
    requires forall i | 0 <= i < |q| :: !IsSpace(q[i])
    ensures Strip(p + " " + m + " " + q) == p + m + q
  {
    assert Strip(p + " " + m) == p + m by {
      StripNoSpace(p);
      StripPiece(p, " ", m);
    }
    StripPiece(p + " " + m, " ", q);
  }

  lemma UnclosedStrip()
    ensures Strip("(A & B") == "(A&B"
  {
    StripTwoSpaces("(A", "&", "B");
    assert "(A" + " " + "&" + " " + "B" == "(A & B";
    assert "(A" + "&" + "B" == "(A&B";
  }

  lemma UnclosedStripped()
    ensures Parse("(A&B") == Failure(MismatchedParenthesis)
  {
    NamesOk();
    ParseUnclosed("A", "&", "B");
    assert "(" + "A" + "&" + "B" == "(A&B";
  }

  /** An opening parenthesis never closed is a mismatched parenthesis. */
  lemma UnclosedCase()
    ensures Parse("(A & B") == Failure(MismatchedParenthesis)
  {
    UnclosedStrip();
    WhitespaceIgnored("(A & B");
    UnclosedStripped();
  }

  lemma OverclosedStrip()
    ensures Strip("(A|C & B))") == "(A|C&B))"
  {
    StripTwoSpaces("(A|C", "&", "B))");
    assert "(A|C" + " " + "&" + " " + "B))" == "(A|C & B))";
    assert "(A|C" + "&" + "B))" == "(A|C&B))";
  }

  lemma OverclosedStripped()
    ensures Parse("(A|C&B))") == Failure(MismatchedParenthesis)
  {
    NamesOk();
    ParseOverclosed("A", "|", "C", "&", "B");
    assert "(" + ("A" + "|" + "C" + "&" + "B") + "))" == "(A|C&B))";
  }

  /** A closing parenthesis with nothing open is a mismatched parenthesis. */
  lemma OverclosedCase()
    ensures Parse("(A|C & B))") == Failure(MismatchedParenthesis)
  {
    OverclosedStrip();
    WhitespaceIgnored("(A|C & B))");
    OverclosedStripped();
  }

  lemma UnknownAtEndStrip()
    ensures Strip("A ->>> B") == "A->>>B"
  {
    StripTwoSpaces("A", "->>>", "B");
    assert "A" + " " + "->>>" + " " + "B" == "A ->>> B";
    assert "A" + "->>>" + "B" == "A->>>B";
  }

  lemma UnknownAtEndStripped()
    ensures Parse("A->>>B") == Failure(UnrecognizedOperator)
  {
    NamesOk();
    assert TokenOk(Operator("->>>"));
    ParseUnknownBetween("A", "->>>", "B");
    assert "A" + "->>>" + "B" == "A->>>B";
  }

  /** An operator run of unknown spelling is rejected when it is finally applied. */
  lemma UnknownAtEndCase()
    ensures Parse("A ->>> B") == Failure(UnrecognizedOperator)
  {
    UnknownAtEndStrip();
    WhitespaceIgnored("A ->>> B");
    UnknownAtEndStripped();
  }

  lemma UnknownInLoopStrip()
    ensures Strip("A&B|C ->>> D") == "A&B|C->>>D"
  {
    assert forall i | 0 <= i < |"A&B|C"| :: !IsSpace("A&B|C"[i]);
    StripTwoSpaces("A&B|C", "->>>", "D");
    assert "A&B|C" + " " + "->>>" + " " + "D" == "A&B|C ->>> D";
    assert "A&B|C" + "->>>" + "D" == "A&B|C->>>D";
  }

  lemma UnknownInLoopStripped()
    ensures Parse("A&B|C->>>D") == Failure(UnrecognizedOperator)
  {
    NamesOk();
    assert TokenOk(Operator("->>>"));
    ParseUnknownAfterChain("A", "&", "B", "|", "C", "->>>", "D");
    assert "A" + "&" + "B" + "|" + "C" + "->>>" + "D" == "A&B|C->>>D";
  }

  /** An operator run of unknown spelling is rejected as soon as it meets a waiting operator. */
  lemma UnknownInLoopCase()
    ensures Parse("A&B|C ->>> D") == Failure(UnrecognizedOperator)
  {
    UnknownInLoopStrip();
    WhitespaceIgnored("A&B|C ->>> D");
    UnknownInLoopStripped();
  }
}
