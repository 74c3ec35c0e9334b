/**
 * How the parser groups operators and reports errors, on token patterns and
 * on the strings the tokenizer turns into them.
 */
module ParserExamples {
  import opened Wrappers
  import opened Types
  import opened Tokenizer
  import opened Parser

  function Name(x: string): Token {
    Token(VarKind, x)
  }

  function Operator(v: string): Token {
    Token(OpKind, v)
  }

  const Open := Token(ParenKind, "(")
  const Close := Token(ParenKind, ")")

  /** The tokens of a parenthesized name, operator and name. */
  function Group(x: string, o: string, y: string): seq<Token> {
    [Open, Name(x), Operator(o), Name(y), Close]
  }

  function GroupString(x: string, o: string, y: string): string {
    "(" + x + o + y + ")"
  }

  /** A string the tokenizer reads as a single name. */
  predicate IsName(x: string) {
    TokenOk(Name(x))
  }

  /** The binding strength of a known spelling. */
  function Rank(v: string): nat
    requires Recognized(v)
  {
    Precedence(Operator(v)).value
  }

  /**
   * The formula x o1 y o2 z stands for: the second operator groups first,
   * to the right, unless the first binds strictly tighter.
   */
  function Chain(x: Expr, o1: string, y: Expr, o2: string, z: Expr): Expr
    requires BinaryOf(o1).Some? && BinaryOf(o2).Some?
  {
    var b1 := BinaryOf(o1).value;
    var b2 := BinaryOf(o2).value;
    if Rank(o2) >= Rank(o1) then Bin(b1, x, Bin(b2, y, z)) else Bin(b2, Bin(b1, x, y), z)
  }

  lemma RunCons(st: State, t: Token, ts: seq<Token>)
    requires Step(st, t).Success?
    ensures Run(st, [t] + ts) == Run(Step(st, t).value, ts)
  {
    assert ([t] + ts)[1..] == ts;
  }

  /** The main loop over two tokens, step by step. */
  lemma RunTwo(s0: State, a: Token, s1: State, b: Token, s2: State)
    requires Step(s0, a) == Success(s1) && Step(s1, b) == Success(s2)
    ensures Run(s0, [a, b]) == Success(s2)
  {
    RunCons(s1, b, []);
    assert [b] + [] == [b];
    RunCons(s0, a, [b]);
    assert [a] + [b] == [a, b];
  }

  /** The main loop over three tokens, step by step. */
  lemma RunThree(s0: State, a: Token, s1: State, b: Token, s2: State, c: Token, s3: State)
    requires Step(s0, a) == Success(s1) && Step(s1, b) == Success(s2) && Step(s2, c) == Success(s3)
    ensures Run(s0, [a, b, c]) == Success(s3)
  {
    RunTwo(s1, b, s2, c, s3);
    RunCons(s0, a, [b, c]);
    assert [a] + [b, c] == [a, b, c];
  }

  /** The main loop over four tokens, step by step. */
  lemma RunFour(s0: State, a: Token, s1: State, b: Token, s2: State, c: Token, s3: State, d: Token, s4: State)
    requires Step(s0, a) == Success(s1) && Step(s1, b) == Success(s2)
    requires Step(s2, c) == Success(s3) && Step(s3, d) == Success(s4)
    ensures Run(s0, [a, b, c, d]) == Success(s4)
  {
    RunThree(s1, b, s2, c, s3, d, s4);
    RunCons(s0, a, [b, c, d]);
    assert [a] + [b, c, d] == [a, b, c, d];
  }

  /** The main loop over two pieces of input is the loop over the second from where the first left off. */
  lemma {:induction false} RunAppend(st: State, a: seq<Token>, b: seq<Token>)
    requires Run(st, a).Success?
    ensures Run(st, a + b) == Run(Run(st, a).value, b)
    decreases |a|
  {
    if a != [] {
      assert Step(st, a[0]).Success?;
      var st' := Step(st, a[0]).value;
      assert Run(st, a) == Run(st', a[1..]);
      assert a + b != [] && (a + b)[0] == a[0];
      assert (a + b)[1..] == a[1..] + b;
      RunAppend(st', a[1..], b);
    } else {
      assert a + b == b;
    }
  }

  /** Appending one element and then two is appending the three. */
  lemma AppendOneTwo<T>(s: seq<T>, a: T, b: T, c: T)
    ensures s + [a] + [b, c] == s + [a, b, c]
  {
  }

  /** Appending one element and then another is appending the two. */
  lemma AppendOneOne<T>(s: seq<T>, a: T, b: T)
    ensures s + [a] + [b] == s + [a, b]
  {
  }

  /** Appending two elements and then one is appending the three. */
  lemma AppendTwoOne<T>(s: seq<T>, a: T, b: T, c: T)
    ensures s + [a, b] + [c] == s + [a, b, c]
  {
  }

  /** A binary operator takes the top two formulas of the output, the topmost as its right side. */
  lemma OutBinary(out: seq<Expr>, o: string, x: Expr, y: Expr)
    requires BinaryOf(o).Some?
    ensures Out(Operator(o), out + [x, y]) == Success(out + [Bin(BinaryOf(o).value, x, y)])
  {
    var e := Bin(BinaryOf(o).value, x, y);
    var r := Out(Operator(o), out + [x, y]).value;
    assert (out + [x, y])[..|out|] == out;
    assert r[..|out|] == out && r[|out|] == e && |r| == |out| + 1;
    assert r == out + [e];
  }

  /** A negation takes the top formula of the output. */
  lemma OutNegation(out: seq<Expr>, n: string, x: Expr)
    requires IsNegation(n)
    ensures Out(Operator(n), out + [x]) == Success(out + [Neg(x)])
  {
    var r := Out(Operator(n), out + [x]).value;
    assert (out + [x])[..|out|] == out;
    assert r[..|out|] == out && r[|out|] == Neg(x) && |r| == |out| + 1;
    assert r == out + [Neg(x)];
  }

  /** An incoming operator weaker than the waiting binary operator sends that operator to the output. */
  lemma PopWeaker(out: seq<Expr>, ops: seq<Token>, x: Expr, o1: string, y: Expr, o2: string)
    requires BinaryOf(o1).Some? && BinaryOf(o2).Some? && Rank(o2) < Rank(o1)
    ensures PopHigher(Operator(o2), State(out + [x, y], ops + [Operator(o1)])) ==
      PopHigher(Operator(o2), State(out + [Bin(BinaryOf(o1).value, x, y)], ops))
  {
    var st := State(out + [x, y], ops + [Operator(o1)]);
    OutBinary(out, o1, x, y);
    assert st.ops[..|st.ops| - 1] == ops;
  }

  /** A closing parenthesis sends a waiting binary operator to the output. */
  lemma CloseOne(out: seq<Expr>, ops: seq<Token>, x: Expr, o: string, y: Expr)
    requires BinaryOf(o).Some?
    ensures CloseParen(State(out + [x, y], ops + [Operator(o)])) ==
      CloseParen(State(out + [Bin(BinaryOf(o).value, x, y)], ops))
  {
    var st := State(out + [x, y], ops + [Operator(o)]);
    OutBinary(out, o, x, y);
    NotParen(o);
    assert st.ops[..|st.ops| - 1] == ops;
  }

  /** No operator spelling is a parenthesis. */
  lemma NotParen(v: string)
    requires Recognized(v)
    ensures v != "(" && v != ")"
  {
    SpellingIsRun(v);
    assert IsOpChar(v[0]);
  }

  /** At the end of input a waiting binary operator is applied to the top two formulas. */
  lemma FinishOne(out: seq<Expr>, ops: seq<Token>, x: Expr, o: string, y: Expr)
    requires BinaryOf(o).Some?
    ensures Finish(State(out + [x, y], ops + [Operator(o)])) ==
      Finish(State(out + [Bin(BinaryOf(o).value, x, y)], ops))
  {
    var st := State(out + [x, y], ops + [Operator(o)]);
    OutBinary(out, o, x, y);
    NotParen(o);
    assert st.ops[..|st.ops| - 1] == ops;
  }

  /** At the end of input a waiting negation is applied to the top formula. */
  lemma FinishNegation(out: seq<Expr>, ops: seq<Token>, n: string, x: Expr)
    requires IsNegation(n)
    ensures Finish(State(out + [x], ops + [Operator(n)])) == Finish(State(out + [Neg(x)], ops))
  {
    var st := State(out + [x], ops + [Operator(n)]);
    OutNegation(out, n, x);
    NotParen(n);
    assert st.ops[..|st.ops| - 1] == ops;
  }

  /** An incoming binary operator sends a waiting negation to the output. */
  lemma PopNegation(out: seq<Expr>, ops: seq<Token>, n: string, x: Expr, o: string)
    requires IsNegation(n) && BinaryOf(o).Some?
    ensures PopHigher(Operator(o), State(out + [x], ops + [Operator(n)])) ==
      PopHigher(Operator(o), State(out + [Neg(x)], ops))
  {
    var st := State(out + [x], ops + [Operator(n)]);
    OutNegation(out, n, x);
    assert st.ops[..|st.ops| - 1] == ops;
  }

  /** Every known spelling is a run of operator characters. */
  lemma SpellingIsRun(v: string)
    requires Recognized(v)
    ensures TokenOk(Operator(v))
  {
  }

  /** A name, any operator and a name: both atoms are output and the operator waits. */
  lemma NamesAround(x: string, o: string, y: string)
    ensures Run(Start, [Name(x), Operator(o), Name(y)]) == Success(State([Atom(x), Atom(y)], [Operator(o)]))
  {
    var s1 := State([Atom(x)], []);
    var s2 := State([Atom(x)], [Operator(o)]);
    var s3 := State([Atom(x), Atom(y)], [Operator(o)]);
    assert Step(Start, Name(x)) == Success(s1) by {
      assert [] + [Atom(x)] == [Atom(x)];
    }
    assert Step(s1, Operator(o)) == Success(s2) by {
      assert PopHigher(Operator(o), s1) == Success(s1);
      assert [] + [Operator(o)] == [Operator(o)];
    }
    assert Step(s2, Name(y)) == Success(s3) by {
      assert [Atom(x)] + [Atom(y)] == [Atom(x), Atom(y)];
    }
    RunThree(Start, Name(x), s1, Operator(o), s2, Name(y), s3);
  }

  /** A name, a binary operator and a name: the operator applied to the two atoms. */
  lemma BinaryTokens(x: string, o: string, y: string)
    requires BinaryOf(o).Some?
    ensures ParseTokens([Name(x), Operator(o), Name(y)]) ==
      Success(Some(Bin(BinaryOf(o).value, Atom(x), Atom(y))))
  {
    NamesAround(x, o, y);
    var s3 := State([Atom(x), Atom(y)], [Operator(o)]);
    var e := Bin(BinaryOf(o).value, Atom(x), Atom(y));
    FinishOne([], [], Atom(x), o, Atom(y));
    assert [] + [Atom(x), Atom(y)] == [Atom(x), Atom(y)] && [] + [e] == [e] && [] + [Operator(o)] == [Operator(o)];
  }

  /** A negation and a name: the negated atom. */
  lemma NegationTokens(n: string, x: string)
    requires IsNegation(n)
    ensures ParseTokens([Operator(n), Name(x)]) == Success(Some(Neg(Atom(x))))
  {
    var s1 := State([], [Operator(n)]);
    var s2 := State([Atom(x)], [Operator(n)]);
    assert Step(Start, Operator(n)) == Success(s1) by {
      assert [] + [Operator(n)] == [Operator(n)];
    }
    assert Step(s1, Name(x)) == Success(s2) by {
      assert [] + [Atom(x)] == [Atom(x)];
    }
    RunTwo(Start, Operator(n), s1, Name(x), s2);
    assert Finish(s2) == Success([Neg(Atom(x))]) by {
      FinishNegation([], [], n, Atom(x));
      assert [] + [Atom(x)] == [Atom(x)] && [] + [Neg(Atom(x))] == [Neg(Atom(x))] && [] + [Operator(n)] == [Operator(n)];
    }
  }

  /** A negated name, a binary operator and a name: the negation is applied before the operator. */
  lemma NegatedLeftTokens(n: string, x: string, o: string, y: string)
    requires IsNegation(n) && BinaryOf(o).Some?
    ensures Run(Start, [Operator(n), Name(x), Operator(o), Name(y)]) ==
      Success(State([Neg(Atom(x)), Atom(y)], [Operator(o)]))
  {
    var s1 := State([], [Operator(n)]);
    var s2 := State([Atom(x)], [Operator(n)]);
    var s3 := State([Neg(Atom(x))], [Operator(o)]);
    var s4 := State([Neg(Atom(x)), Atom(y)], [Operator(o)]);
    OperatorFirst(n);
    NameAfterOperator(n, x);
    NegationPopped(n, Atom(x), o);
    NameAfterNegation(x, o, y);
    RunFour(Start, Operator(n), s1, Name(x), s2, Operator(o), s3, Name(y), s4);
  }

  /** An operator first waits on the empty stack. */
  lemma OperatorFirst(n: string)
    ensures Step(Start, Operator(n)) == Success(State([], [Operator(n)]))
  {
    assert [] + [Operator(n)] == [Operator(n)];
  }

  /** A name after a waiting operator goes to the empty output. */
  lemma NameAfterOperator(n: string, x: string)
    ensures Step(State([], [Operator(n)]), Name(x)) == Success(State([Atom(x)], [Operator(n)]))
  {
    assert [] + [Atom(x)] == [Atom(x)];
  }

  /** With no operator waiting, an incoming operator pops nothing. */
  lemma PopHigherEmpty(t: Token, out: seq<Expr>)
    ensures PopHigher(t, State(out, [])) == Success(State(out, []))
  {
  }

  /** An operator token waits on top of whatever the popping leaves. */
  lemma StepOperator(st: State, t: Token, mid: State)
    requires t.kind == OpKind && PopHigher(t, st) == Success(mid)
    ensures Step(st, t) == Success(State(mid.output, mid.ops + [t]))
  {
  }

  /** A binary operator pops a lone waiting negation, applied to the lone formula. */
  lemma PopLoneNegation(n: string, x: Expr, o: string)
    requires IsNegation(n) && BinaryOf(o).Some?
    ensures PopHigher(Operator(o), State([x], [Operator(n)])) == Success(State([Neg(x)], []))
  {
    OutLone(n, x);
    var ops := [Operator(n)];
    assert ops[|ops| - 1] == Operator(n) && ops[..|ops| - 1] == [];
    PopHigherEmpty(Operator(o), [Neg(x)]);
  }

  /** Negation applied to a lone formula leaves its negation alone. */
  lemma OutLone(n: string, x: Expr)
    requires IsNegation(n)
    ensures Out(Operator(n), [x]) == Success([Neg(x)])
  {
    var r := Out(Operator(n), [x]).value;
    assert |r| == 1 && r[0] == Neg(x);
  }

  /** A binary operator after a negated formula applies the negation and then waits. */
  lemma NegationPopped(n: string, x: Expr, o: string)
    requires IsNegation(n) && BinaryOf(o).Some?
    ensures Step(State([x], [Operator(n)]), Operator(o)) == Success(State([Neg(x)], [Operator(o)]))
  {
    PopLoneNegation(n, x, o);
    StepOperator(State([x], [Operator(n)]), Operator(o), State([Neg(x)], []));
    assert [] + [Operator(o)] == [Operator(o)];
  }

  /** A name after a negated formula and a waiting operator goes on top of the output. */
  lemma NameAfterNegation(x: string, o: string, y: string)
    ensures Step(State([Neg(Atom(x))], [Operator(o)]), Name(y)) ==
      Success(State([Neg(Atom(x)), Atom(y)], [Operator(o)]))
  {
    assert [Neg(Atom(x))] + [Atom(y)] == [Neg(Atom(x)), Atom(y)];
  }

  /** Two binary operators left waiting apply top first, so the second groups to the right. */
  lemma FinishTwo(x: Expr, y: Expr, z: Expr, o1: string, o2: string)
    requires BinaryOf(o1).Some? && BinaryOf(o2).Some?
    ensures Finish(State([x, y, z], [Operator(o1), Operator(o2)])) ==
      Success([Bin(BinaryOf(o1).value, x, Bin(BinaryOf(o2).value, y, z))])
  {
    var right := Bin(BinaryOf(o2).value, y, z);
    var e := Bin(BinaryOf(o1).value, x, right);
    FinishOne([x], [Operator(o1)], y, o2, z);
    assert [x] + [y, z] == [x, y, z] && [x] + [right] == [x, right];
    assert [Operator(o1)] + [Operator(o2)] == [Operator(o1), Operator(o2)];
    FinishOne([], [], x, o1, right);
    assert [] + [x, right] == [x, right] && [] + [e] == [e] && [] + [Operator(o1)] == [Operator(o1)];
  }

  /** After x o1 y, a second operator no weaker than the first waits on top of it and applies first. */
  lemma ChainRight(x: Expr, o1: string, y: Expr, o2: string, z: string)
    requires BinaryOf(o1).Some? && BinaryOf(o2).Some? && Rank(o2) >= Rank(o1)
    ensures var r := Run(State([x, y], [Operator(o1)]), [Operator(o2), Name(z)]);
      r.Success? && Finish(r.value) == Success([Bin(BinaryOf(o1).value, x, Bin(BinaryOf(o2).value, y, Atom(z)))]) &&
      r.value.ops == [Operator(o1), Operator(o2)]
  {
    var st := State([x, y], [Operator(o1)]);
    var s4 := State([x, y], [Operator(o1), Operator(o2)]);
    var s5 := State([x, y, Atom(z)], [Operator(o1), Operator(o2)]);
    assert Step(st, Operator(o2)) == Success(s4) by {
      assert PopHigher(Operator(o2), st) == Success(st);
      assert [Operator(o1)] + [Operator(o2)] == [Operator(o1), Operator(o2)];
    }
    assert Step(s4, Name(z)) == Success(s5) by {
      assert [x, y] + [Atom(z)] == [x, y, Atom(z)];
    }
    RunTwo(st, Operator(o2), s4, Name(z), s5);
    FinishTwo(x, y, Atom(z), o1, o2);
  }

  /** After x o1 y, a second operator weaker than the first sends it to the output first. */
  lemma ChainLeft(x: Expr, o1: string, y: Expr, o2: string, z: string)
    requires BinaryOf(o1).Some? && BinaryOf(o2).Some? && Rank(o2) < Rank(o1)
    ensures var r := Run(State([x, y], [Operator(o1)]), [Operator(o2), Name(z)]);
      r.Success? && Finish(r.value) == Success([Bin(BinaryOf(o2).value, Bin(BinaryOf(o1).value, x, y), Atom(z))]) &&
      r.value.ops == [Operator(o2)]
  {
    var st := State([x, y], [Operator(o1)]);
    var left := Bin(BinaryOf(o1).value, x, y);
    var e := Bin(BinaryOf(o2).value, left, Atom(z));
    var s4 := State([left], [Operator(o2)]);
    var s5 := State([left, Atom(z)], [Operator(o2)]);
    assert Step(st, Operator(o2)) == Success(s4) by {
      PopWeaker([], [], x, o1, y, o2);
      assert [] + [x, y] == [x, y] && [] + [left] == [left] && [] + [Operator(o1)] == [Operator(o1)];
      assert PopHigher(Operator(o2), State([left], [])) == Success(State([left], []));
      assert [] + [Operator(o2)] == [Operator(o2)];
    }
    assert Step(s4, Name(z)) == Success(s5) by {
      assert [left] + [Atom(z)] == [left, Atom(z)];
    }
    RunTwo(st, Operator(o2), s4, Name(z), s5);
    assert Finish(s5) == Success([e]) by {
      FinishOne([], [], left, o2, Atom(z));
      assert [] + [left, Atom(z)] == [left, Atom(z)] && [] + [e] == [e] && [] + [Operator(o2)] == [Operator(o2)];
    }
  }

  /** After x o1 y, a second operator and a name: the whole groups as `Chain` says. */
  lemma ChainTail(x: Expr, o1: string, y: Expr, o2: string, z: string)
    requires BinaryOf(o1).Some? && BinaryOf(o2).Some?
    ensures var r := Run(State([x, y], [Operator(o1)]), [Operator(o2), Name(z)]);
      r.Success? && Finish(r.value) == Success([Chain(x, o1, y, o2, Atom(z))]) &&
      r.value.ops != [] && r.value.ops[|r.value.ops| - 1] == Operator(o2)
  {
    if Rank(o2) >= Rank(o1) {
      ChainRight(x, o1, y, o2, z);
    } else {
      ChainLeft(x, o1, y, o2, z);
    }
  }

  /** Two binary operators between three names group as `Chain` says. */
  lemma ChainTokens(x: string, o1: string, y: string, o2: string, z: string)
    requires BinaryOf(o1).Some? && BinaryOf(o2).Some?
    ensures ParseTokens([Name(x), Operator(o1), Name(y), Operator(o2), Name(z)]) ==
      Success(Some(Chain(Atom(x), o1, Atom(y), o2, Atom(z))))
  {
    NamesAround(x, o1, y);
    RunAppend(Start, [Name(x), Operator(o1), Name(y)], [Operator(o2), Name(z)]);
    assert [Name(x), Operator(o1), Name(y)] + [Operator(o2), Name(z)] ==
      [Name(x), Operator(o1), Name(y), Operator(o2), Name(z)];
    ChainTail(Atom(x), o1, Atom(y), o2, z);
  }

  /** With a negated first name, the negation binds tighter than either operator. */
  lemma NegatedChainTokens(n: string, x: string, o1: string, y: string, o2: string, z: string)
    requires IsNegation(n) && BinaryOf(o1).Some? && BinaryOf(o2).Some?
    ensures ParseTokens([Operator(n), Name(x), Operator(o1), Name(y), Operator(o2), Name(z)]) ==
      Success(Some(Chain(Neg(Atom(x)), o1, Atom(y), o2, Atom(z))))
  {
    NegatedLeftTokens(n, x, o1, y);
    RunAppend(Start, [Operator(n), Name(x), Operator(o1), Name(y)], [Operator(o2), Name(z)]);
    assert [Operator(n), Name(x), Operator(o1), Name(y)] + [Operator(o2), Name(z)] ==
      [Operator(n), Name(x), Operator(o1), Name(y), Operator(o2), Name(z)];
    ChainTail(Neg(Atom(x)), o1, Atom(y), o2, z);
  }

  /** The text of a token followed by more tokens. */
  lemma FlattenCons(t: Token, ts: seq<Token>)
    ensures Flatten([t] + ts) == t.value + Flatten(ts)
  {
    FlattenAppend([t], ts);
    assert [t][..0] == [];
    assert Flatten([t]) == [] + t.value;
  }

  /** A run in front of well-formed tokens it cannot merge with. */
  lemma WellFormedCons(t: Token, ts: seq<Token>)
    requires TokenOk(t) && WellFormed(ts)
    requires ts != [] ==> Separated(t, ts[0])
    ensures WellFormed([t] + ts)
  {
    var r := [t] + ts;
    assert forall i | 1 <= i < |r| :: r[i] == ts[i - 1];
  }

  /** Well-formed tokens in front of which a run is put, with their text. */
  lemma Prepend(t: Token, ts: seq<Token>, s: string)
    requires TokenOk(t) && WellFormed(ts) && Flatten(ts) == s
    requires ts != [] ==> Separated(t, ts[0])
    ensures WellFormed([t] + ts) && Flatten([t] + ts) == t.value + s
  {
    WellFormedCons(t, ts);
    FlattenCons(t, ts);
  }

  /** A name, an operator and a name are well-formed tokens, and their text. */
  lemma ThreeText(x: string, o: string, y: string)
    requires IsName(x) && IsName(y) && TokenOk(Operator(o))
    ensures WellFormed([Name(x), Operator(o), Name(y)])
    ensures Flatten([Name(x), Operator(o), Name(y)]) == x + o + y
  {
    Prepend(Name(y), [], []);
    assert y + [] == y && [Name(y)] + [] == [Name(y)];
    Prepend(Operator(o), [Name(y)], y);
    assert [Operator(o)] + [Name(y)] == [Operator(o), Name(y)];
    Prepend(Name(x), [Operator(o), Name(y)], o + y);
    assert [Name(x)] + [Operator(o), Name(y)] == [Name(x), Operator(o), Name(y)];
    assert x + (o + y) == x + o + y;
  }

  /** x o1 y o2 z are well-formed tokens, and their text. */
  lemma FiveText(x: string, o1: string, y: string, o2: string, z: string)
    requires IsName(x) && IsName(y) && IsName(z) && TokenOk(Operator(o1)) && TokenOk(Operator(o2))
    ensures WellFormed([Name(x), Operator(o1), Name(y), Operator(o2), Name(z)])
    ensures Flatten([Name(x), Operator(o1), Name(y), Operator(o2), Name(z)]) == x + o1 + y + o2 + z
  {
    ThreeText(y, o2, z);
    Prepend(Operator(o1), [Name(y), Operator(o2), Name(z)], y + o2 + z);
    assert [Operator(o1)] + [Name(y), Operator(o2), Name(z)] == [Operator(o1), Name(y), Operator(o2), Name(z)];
    Prepend(Name(x), [Operator(o1), Name(y), Operator(o2), Name(z)], o1 + (y + o2 + z));
    assert [Name(x)] + [Operator(o1), Name(y), Operator(o2), Name(z)] == [Name(x), Operator(o1), Name(y), Operator(o2), Name(z)];
    assert x + (o1 + (y + o2 + z)) == x + o1 + y + o2 + z;
  }

  /** The tokens of a name, an operator and a name written out. */
  lemma ThreeTokens(x: string, o: string, y: string)
    requires IsName(x) && IsName(y) && TokenOk(Operator(o))
    ensures Tokenize(x + o + y) == [Name(x), Operator(o), Name(y)]
  {
    ThreeText(x, o, y);
    TokenizeFlatten([Name(x), Operator(o), Name(y)]);
  }

  /** The tokens of x o1 y o2 z written out. */
  lemma FiveTokens(x: string, o1: string, y: string, o2: string, z: string)
    requires IsName(x) && IsName(y) && IsName(z) && TokenOk(Operator(o1)) && TokenOk(Operator(o2))
    ensures Tokenize(x + o1 + y + o2 + z) == [Name(x), Operator(o1), Name(y), Operator(o2), Name(z)]
  {
    FiveText(x, o1, y, o2, z);
    TokenizeFlatten([Name(x), Operator(o1), Name(y), Operator(o2), Name(z)]);
  }

  /** The tokens of n x o1 y o2 z written out, n an operator. */
  lemma SixTokens(n: string, x: string, o1: string, y: string, o2: string, z: string)
    requires IsName(x) && IsName(y) && IsName(z)
    requires TokenOk(Operator(n)) && TokenOk(Operator(o1)) && TokenOk(Operator(o2))
    ensures Tokenize(n + x + o1 + y + o2 + z) == [Operator(n), Name(x), Operator(o1), Name(y), Operator(o2), Name(z)]
  {
    var rest := [Name(x), Operator(o1), Name(y), Operator(o2), Name(z)];
    FiveText(x, o1, y, o2, z);
    Prepend(Operator(n), rest, x + o1 + y + o2 + z);
    assert n + (x + o1 + y + o2 + z) == n + x + o1 + y + o2 + z;
    assert [Operator(n)] + rest == [Operator(n), Name(x), Operator(o1), Name(y), Operator(o2), Name(z)];
    TokenizeFlatten([Operator(n)] + rest);
  }

  /** `parse` of a name, a binary operator and a name. */
  lemma ParseBinary(x: string, o: string, y: string)
    requires IsName(x) && IsName(y) && BinaryOf(o).Some?
    ensures Parse(x + o + y) == Success(Some(Bin(BinaryOf(o).value, Atom(x), Atom(y))))
  {
    SpellingIsRun(o);
    ThreeTokens(x, o, y);
    BinaryTokens(x, o, y);
  }

  /** `parse` of a negation and a name. */
  lemma ParseNegation(n: string, x: string)
    requires IsName(x) && IsNegation(n)
    ensures Parse(n + x) == Success(Some(Neg(Atom(x))))
  {
    SpellingIsRun(n);
    Prepend(Name(x), [], []);
    assert x + [] == x && [Name(x)] + [] == [Name(x)];
    Prepend(Operator(n), [Name(x)], x);
    assert [Operator(n)] + [Name(x)] == [Operator(n), Name(x)];
    TokenizeFlatten([Operator(n), Name(x)]);
    NegationTokens(n, x);
  }

  /** `parse` of three names joined by two binary operators: grouped as `Chain` says. */
  lemma ParseChain(x: string, o1: string, y: string, o2: string, z: string)
    requires IsName(x) && IsName(y) && IsName(z) && BinaryOf(o1).Some? && BinaryOf(o2).Some?
    ensures Parse(x + o1 + y + o2 + z) == Success(Some(Chain(Atom(x), o1, Atom(y), o2, Atom(z))))
  {
    SpellingIsRun(o1);
    SpellingIsRun(o2);
    FiveTokens(x, o1, y, o2, z);
    ChainTokens(x, o1, y, o2, z);
  }

  /** `parse` of a negated name followed by two binary operators and two names. */
  lemma ParseNegatedChain(n: string, x: string, o1: string, y: string, o2: string, z: string)
    requires IsName(x) && IsName(y) && IsName(z)
    requires IsNegation(n) && BinaryOf(o1).Some? && BinaryOf(o2).Some?
    ensures Parse(n + x + o1 + y + o2 + z) == Success(Some(Chain(Neg(Atom(x)), o1, Atom(y), o2, Atom(z))))
  {
    SpellingIsRun(n);
    SpellingIsRun(o1);
    SpellingIsRun(o2);
    SixTokens(n, x, o1, y, o2, z);
    NegatedChainTokens(n, x, o1, y, o2, z);
  }

  /** Two well-formed token sequences that cannot merge where they meet. */
  lemma WellFormedAppend(a: seq<Token>, b: seq<Token>)
    requires WellFormed(a) && WellFormed(b)
    requires a != [] && b != [] ==> Separated(a[|a| - 1], b[0])
    ensures WellFormed(a + b)
  {
    var r := a + b;
    assert forall i | 0 <= i < |a| :: r[i] == a[i];
    assert forall i | |a| <= i < |r| :: r[i] == b[i - |a|];
  }

  /** An opening parenthesis, a name, an operator and a name: both wait, the atoms are output. */
  lemma GroupOpen(st: State, x: string, o: string, y: string)
    ensures Run(st, [Open, Name(x), Operator(o), Name(y)]) ==
      Success(State(st.output + [Atom(x), Atom(y)], st.ops + [Open, Operator(o)]))
  {
    var s1 := State(st.output, st.ops + [Open]);
    var s2 := State(st.output + [Atom(x)], st.ops + [Open]);
    var s3 := State(st.output + [Atom(x)], st.ops + [Open, Operator(o)]);
    var s4 := State(st.output + [Atom(x), Atom(y)], st.ops + [Open, Operator(o)]);
    assert Step(s2, Operator(o)) == Success(s3) by {
      assert PopHigher(Operator(o), s2) == Success(s2);
      assert st.ops + [Open] + [Operator(o)] == st.ops + [Open, Operator(o)];
    }
    assert Step(s3, Name(y)) == Success(s4) by {
      assert st.output + [Atom(x)] + [Atom(y)] == st.output + [Atom(x), Atom(y)];
    }
    RunFour(st, Open, s1, Name(x), s2, Operator(o), s3, Name(y), s4);
  }

  /** A closing parenthesis after an operator and its two arguments: the node is output and the group is closed. */
  lemma GroupClose(out: seq<Expr>, ops: seq<Token>, x: Expr, o: string, y: Expr)
    requires BinaryOf(o).Some?
    ensures CloseParen(State(out + [x, y], ops + [Open, Operator(o)])) ==
      Success(State(out + [Bin(BinaryOf(o).value, x, y)], ops))
  {
    var e := Bin(BinaryOf(o).value, x, y);
    CloseOne(out, ops + [Open], x, o, y);
    assert ops + [Open] + [Operator(o)] == ops + [Open, Operator(o)];
    assert (ops + [Open])[..|ops|] == ops;
  }

  /** A parenthesized name, binary operator and name: one node is output and the operator stack is as before. */
  lemma GroupTokens(st: State, x: string, o: string, y: string)
    requires BinaryOf(o).Some?
    ensures Run(st, Group(x, o, y)) ==
      Success(State(st.output + [Bin(BinaryOf(o).value, Atom(x), Atom(y))], st.ops))
  {
    var e := Bin(BinaryOf(o).value, Atom(x), Atom(y));
    GroupOpen(st, x, o, y);
    RunAppend(st, [Open, Name(x), Operator(o), Name(y)], [Close]);
    assert [Open, Name(x), Operator(o), Name(y)] + [Close] == [Open, Name(x), Operator(o), Name(y), Close];
    var s4 := State(st.output + [Atom(x), Atom(y)], st.ops + [Open, Operator(o)]);
    GroupClose(st.output, st.ops, Atom(x), o, Atom(y));
    assert Step(s4, Close) == Success(State(st.output + [e], st.ops));
    RunCons(s4, Close, []);
    assert [Close] + [] == [Close];
  }

  /** A parenthesized name, operator and name are well-formed tokens, and their text. */
  lemma GroupText(x: string, o: string, y: string)
    requires IsName(x) && IsName(y) && TokenOk(Operator(o))
    ensures WellFormed(Group(x, o, y))
    ensures Flatten(Group(x, o, y)) == GroupString(x, o, y)
  {
    Prepend(Close, [], []);
    assert ")" + [] == ")" && [Close] + [] == [Close];
    Prepend(Name(y), [Close], ")");
    assert [Name(y)] + [Close] == [Name(y), Close];
    Prepend(Operator(o), [Name(y), Close], y + ")");
    assert [Operator(o)] + [Name(y), Close] == [Operator(o), Name(y), Close];
    Prepend(Name(x), [Operator(o), Name(y), Close], o + (y + ")"));
    assert [Name(x)] + [Operator(o), Name(y), Close] == [Name(x), Operator(o), Name(y), Close];
    Prepend(Open, [Name(x), Operator(o), Name(y), Close], x + (o + (y + ")")));
    assert [Open] + [Name(x), Operator(o), Name(y), Close] == [Open, Name(x), Operator(o), Name(y), Close];
    assert "(" + (x + (o + (y + ")"))) == "(" + x + o + y + ")";
  }

  /** Well-formed tokens, an operator, and well-formed tokens that cannot merge with it: the tokens of their text. */
  lemma JoinText(g1: seq<Token>, t1: string, o: string, g2: seq<Token>, t2: string)
    requires WellFormed(g1) && Flatten(g1) == t1 && WellFormed(g2) && Flatten(g2) == t2
    requires TokenOk(Operator(o))
    requires g1 != [] ==> g1[|g1| - 1].kind != OpKind
    requires g2 != [] ==> g2[0].kind != OpKind
    ensures Tokenize(t1 + o + t2) == g1 + ([Operator(o)] + g2)
  {
    var tail := [Operator(o)] + g2;
    Prepend(Operator(o), g2, t2);
    WellFormedAppend(g1, tail);
    FlattenAppend(g1, tail);
    assert t1 + (o + t2) == t1 + o + t2;
    TokenizeFlatten(g1 + tail);
  }

  /** The tokens of two parenthesized groups joined by an operator. */
  lemma JoinedGroupsText(x: string, o1: string, y: string, o: string, u: string, o2: string, v: string)
    requires IsName(x) && IsName(y) && IsName(u) && IsName(v)
    requires TokenOk(Operator(o1)) && TokenOk(Operator(o)) && TokenOk(Operator(o2))
    ensures Tokenize(GroupString(x, o1, y) + o + GroupString(u, o2, v)) == Group(x, o1, y) + ([Operator(o)] + Group(u, o2, v))
  {
    GroupText(x, o1, y);
    GroupText(u, o2, v);
    JoinText(Group(x, o1, y), GroupString(x, o1, y), o, Group(u, o2, v), GroupString(u, o2, v));
  }

  /** Two parenthesized groups joined by a binary operator: each group is one argument. */
  lemma JoinedGroupsTokens(x: string, o1: string, y: string, o: string, u: string, o2: string, v: string)
    requires BinaryOf(o1).Some? && BinaryOf(o).Some? && BinaryOf(o2).Some?
    ensures ParseTokens(Group(x, o1, y) + ([Operator(o)] + Group(u, o2, v))) == Success(Some(Bin(BinaryOf(o).value,
        Bin(BinaryOf(o1).value, Atom(x), Atom(y)), Bin(BinaryOf(o2).value, Atom(u), Atom(v)))))
  {
    var g1 := Group(x, o1, y);
    var g2 := Group(u, o2, v);
    var l := Bin(BinaryOf(o1).value, Atom(x), Atom(y));
    var r := Bin(BinaryOf(o2).value, Atom(u), Atom(v));
    GroupTokens(Start, x, o1, y);
    assert [] + [l] == [l];
    var s1 := State([l], []);
    RunAppend(Start, g1, [Operator(o)] + g2);
    assert PopHigher(Operator(o), s1) == Success(s1);
    assert [] + [Operator(o)] == [Operator(o)];
    var s2 := State([l], [Operator(o)]);
    assert Step(s1, Operator(o)) == Success(s2);
    RunCons(s1, Operator(o), g2);
    GroupTokens(s2, u, o2, v);
    assert [l] + [r] == [l, r];
    var s3 := State([l, r], [Operator(o)]);
    var e := Bin(BinaryOf(o).value, l, r);
    FinishOne([], [], l, o, r);
    assert [] + [l, r] == [l, r] && [] + [e] == [e];
  }

  /** `parse` of two parenthesized groups joined by a binary operator. */
  lemma ParseJoinedGroups(x: string, o1: string, y: string, o: string, u: string, o2: string, v: string)
    requires IsName(x) && IsName(y) && IsName(u) && IsName(v)
    requires BinaryOf(o1).Some? && BinaryOf(o).Some? && BinaryOf(o2).Some?
    ensures Parse(GroupString(x, o1, y) + o + GroupString(u, o2, v)) == Success(Some(Bin(BinaryOf(o).value,
      Bin(BinaryOf(o1).value, Atom(x), Atom(y)), Bin(BinaryOf(o2).value, Atom(u), Atom(v)))))
  {
    SpellingIsRun(o1);
    SpellingIsRun(o);
    SpellingIsRun(o2);
    JoinedGroupsText(x, o1, y, o, u, o2, v);
    JoinedGroupsTokens(x, o1, y, o, u, o2, v);
  }

  /** The tokens of x o1 y o2 z. */
  function Chained(x: string, o1: string, y: string, o2: string, z: string): seq<Token> {
    [Name(x), Operator(o1), Name(y), Operator(o2), Name(z)]
  }

  /** An opening parenthesis, x o1 y, and a second operator no weaker than the first: all wait. */
  lemma ChainOpenRight(st: State, x: string, o1: string, y: string, o2: string, z: string)
    requires BinaryOf(o1).Some? && BinaryOf(o2).Some? && Rank(o2) >= Rank(o1)
    ensures Run(st, [Open] + Chained(x, o1, y, o2, z)) ==
      Success(State(st.output + [Atom(x), Atom(y), Atom(z)], st.ops + [Open, Operator(o1), Operator(o2)]))
  {
    var out := st.output;
    var s4 := State(out + [Atom(x), Atom(y)], st.ops + [Open, Operator(o1)]);
    GroupOpen(st, x, o1, y);
    assert [Open] + Chained(x, o1, y, o2, z) == [Open, Name(x), Operator(o1), Name(y)] + [Operator(o2), Name(z)];
    RunAppend(st, [Open, Name(x), Operator(o1), Name(y)], [Operator(o2), Name(z)]);
    var s5 := State(out + [Atom(x), Atom(y)], st.ops + [Open, Operator(o1), Operator(o2)]);
    assert Step(s4, Operator(o2)) == Success(s5) by {
      assert PopHigher(Operator(o2), s4) == Success(s4);
      assert s4.ops + [Operator(o2)] == s5.ops;
    }
    var s6 := State(out + [Atom(x), Atom(y), Atom(z)], s5.ops);
    assert Step(s5, Name(z)) == Success(s6) by {
      assert s5.output + [Atom(z)] == s6.output;
    }
    RunTwo(s4, Operator(o2), s5, Name(z), s6);
  }

  /** A closing parenthesis over two waiting operators: the top one applies first. */
  lemma ChainCloseRight(out: seq<Expr>, ops: seq<Token>, x: Expr, o1: string, y: Expr, o2: string, z: Expr)
    requires BinaryOf(o1).Some? && BinaryOf(o2).Some?
    ensures CloseParen(State(out + [x, y, z], ops + [Open, Operator(o1), Operator(o2)])) ==
      Success(State(out + [Bin(BinaryOf(o1).value, x, Bin(BinaryOf(o2).value, y, z))], ops))
  {
    var right := Bin(BinaryOf(o2).value, y, z);
    CloseOne(out + [x], ops + [Open, Operator(o1)], y, o2, z);
    AppendOneTwo(out, x, y, z);
    AppendOneOne(out, x, right);
    AppendTwoOne(ops, Open, Operator(o1), Operator(o2));
    GroupClose(out, ops, x, o1, right);
  }

  /** Inside a group, an incoming operator weaker than the waiting one sends it to the output and stops at the parenthesis. */
  lemma PopOneInGroup(out: seq<Expr>, ops: seq<Token>, x: Expr, o1: string, y: Expr, o2: string)
    requires BinaryOf(o1).Some? && BinaryOf(o2).Some? && Rank(o2) < Rank(o1)
    ensures PopHigher(Operator(o2), State(out + [x, y], ops + [Open, Operator(o1)])) ==
      Success(State(out + [Bin(BinaryOf(o1).value, x, y)], ops + [Open]))
  {
    PopWeaker(out, ops + [Open], x, o1, y, o2);
    assert ops + [Open] + [Operator(o1)] == ops + [Open, Operator(o1)];
  }

  /** An opening parenthesis, x o1 y, and a second operator weaker than the first: the first is applied. */
  lemma ChainOpenLeft(st: State, x: string, o1: string, y: string, o2: string, z: string)
    requires BinaryOf(o1).Some? && BinaryOf(o2).Some? && Rank(o2) < Rank(o1)
    ensures Run(st, [Open] + Chained(x, o1, y, o2, z)) ==
      Success(State(st.output + [Bin(BinaryOf(o1).value, Atom(x), Atom(y)), Atom(z)], st.ops + [Open, Operator(o2)]))
  {
    var out := st.output;
    var s4 := State(out + [Atom(x), Atom(y)], st.ops + [Open, Operator(o1)]);
    GroupOpen(st, x, o1, y);
    assert [Open] + Chained(x, o1, y, o2, z) == [Open, Name(x), Operator(o1), Name(y)] + [Operator(o2), Name(z)];
    RunAppend(st, [Open, Name(x), Operator(o1), Name(y)], [Operator(o2), Name(z)]);
    var left := Bin(BinaryOf(o1).value, Atom(x), Atom(y));
    PopOneInGroup(out, st.ops, Atom(x), o1, Atom(y), o2);
    var s5 := State(out + [left], st.ops + [Open, Operator(o2)]);
    assert Step(s4, Operator(o2)) == Success(s5) by {
      assert st.ops + [Open] + [Operator(o2)] == s5.ops;
    }
    var s6 := State(out + [left, Atom(z)], s5.ops);
    assert Step(s5, Name(z)) == Success(s6) by {
      assert s5.output + [Atom(z)] == s6.output;
    }
    RunTwo(s4, Operator(o2), s5, Name(z), s6);
  }

  /** A closing parenthesis after a parenthesized chain: the state the chain's operators leave is closed into one node. */
  lemma ChainCloseStep(st: State, x: string, o1: string, y: string, o2: string, z: string, inner: State, e: Expr)
    requires Run(st, [Open] + Chained(x, o1, y, o2, z)) == Success(inner)
    requires CloseParen(inner) == Success(State(st.output + [e], st.ops))
    ensures Run(st, [Open] + Chained(x, o1, y, o2, z) + [Close]) == Success(State(st.output + [e], st.ops))
  {
    RunAppend(st, [Open] + Chained(x, o1, y, o2, z), [Close]);
    assert Step(inner, Close) == CloseParen(inner);
    RunCons(inner, Close, []);
    assert [Close] + [] == [Close];
  }

  /** A parenthesized chain of two binary operators is output as one node, grouped as `Chain` says. */
  lemma ChainGroup(st: State, x: string, o1: string, y: string, o2: string, z: string)
    requires BinaryOf(o1).Some? && BinaryOf(o2).Some?
    ensures Run(st, [Open] + Chained(x, o1, y, o2, z) + [Close]) ==
      Success(State(st.output + [Chain(Atom(x), o1, Atom(y), o2, Atom(z))], st.ops))
  {
    var out := st.output;
    var e := Chain(Atom(x), o1, Atom(y), o2, Atom(z));
    if Rank(o2) >= Rank(o1) {
      ChainOpenRight(st, x, o1, y, o2, z);
      ChainCloseRight(out, st.ops, Atom(x), o1, Atom(y), o2, Atom(z));
      ChainCloseStep(st, x, o1, y, o2, z,
        State(out + [Atom(x), Atom(y), Atom(z)], st.ops + [Open, Operator(o1), Operator(o2)]), e);
    } else {
      var left := Bin(BinaryOf(o1).value, Atom(x), Atom(y));
      ChainOpenLeft(st, x, o1, y, o2, z);
      GroupClose(out, st.ops, left, o2, Atom(z));
      ChainCloseStep(st, x, o1, y, o2, z, State(out + [left, Atom(z)], st.ops + [Open, Operator(o2)]), e);
    }
  }

  /** The tokens of an opening parenthesis before a name, an operator and a name. */
  lemma UnclosedText(x: string, o: string, y: string)
    requires IsName(x) && IsName(y) && TokenOk(Operator(o))
    ensures Tokenize("(" + x + o + y) == [Open, Name(x), Operator(o), Name(y)]
  {
    ThreeText(x, o, y);
    Prepend(Open, [Name(x), Operator(o), Name(y)], x + o + y);
    assert [Open] + [Name(x), Operator(o), Name(y)] == [Open, Name(x), Operator(o), Name(y)];
    assert "(" + (x + o + y) == "(" + x + o + y;
    TokenizeFlatten([Open, Name(x), Operator(o), Name(y)]);
  }

  /** `parse` of a parenthesis that is never closed, around a name, a binary operator and a name. */
  lemma ParseUnclosed(x: string, o: string, y: string)
    requires IsName(x) && IsName(y) && BinaryOf(o).Some?
    ensures Parse("(" + x + o + y) == Failure(MismatchedParenthesis)
  {
    SpellingIsRun(o);
    UnclosedText(x, o, y);
    GroupOpen(Start, x, o, y);
    assert [] + [Atom(x), Atom(y)] == [Atom(x), Atom(y)];
    assert [] + [Open, Operator(o)] == [Open, Operator(o)];
    var e := Bin(BinaryOf(o).value, Atom(x), Atom(y));
    FinishOne([], [Open], Atom(x), o, Atom(y));
    assert [Open] + [Operator(o)] == [Open, Operator(o)] && [] + [e] == [e];
  }

  /** The tokens of a parenthesized chain followed by one closing parenthesis too many. */
  lemma OverclosedText(x: string, o1: string, y: string, o2: string, z: string)
    requires IsName(x) && IsName(y) && IsName(z) && TokenOk(Operator(o1)) && TokenOk(Operator(o2))
    ensures Tokenize("(" + (x + o1 + y + o2 + z) + "))") == [Open] + Chained(x, o1, y, o2, z) + [Close, Close]
  {
    var t5 := x + o1 + y + o2 + z;
    FiveText(x, o1, y, o2, z);
    Prepend(Open, Chained(x, o1, y, o2, z), t5);
    Prepend(Close, [], []);
    assert [Close] + [] == [Close] && ")" + [] == ")";
    Prepend(Close, [Close], ")");
    assert [Close] + [Close] == [Close, Close] && ")" + ")" == "))";
    WellFormedAppend([Open] + Chained(x, o1, y, o2, z), [Close, Close]);
    FlattenAppend([Open] + Chained(x, o1, y, o2, z), [Close, Close]);
    TokenizeFlatten([Open] + Chained(x, o1, y, o2, z) + [Close, Close]);
  }

  /** `parse` of a parenthesized chain followed by one closing parenthesis too many. */
  lemma ParseOverclosed(x: string, o1: string, y: string, o2: string, z: string)
    requires IsName(x) && IsName(y) && IsName(z) && BinaryOf(o1).Some? && BinaryOf(o2).Some?
    ensures Parse("(" + (x + o1 + y + o2 + z) + "))") == Failure(MismatchedParenthesis)
  {
    SpellingIsRun(o1);
    SpellingIsRun(o2);
    OverclosedText(x, o1, y, o2, z);
    var group := [Open] + Chained(x, o1, y, o2, z) + [Close];
    ChainGroup(Start, x, o1, y, o2, z);
    assert group + [Close] == [Open] + Chained(x, o1, y, o2, z) + [Close, Close];
    RunAppend(Start, group, [Close]);
    var st := State([] + [Chain(Atom(x), o1, Atom(y), o2, Atom(z))], []);
    assert Step(st, Close) == Failure(MismatchedParenthesis);
  }

  /** `parse` of a name, an operator run of unknown spelling and a name. */
  lemma ParseUnknownBetween(x: string, o: string, y: string)
    requires IsName(x) && IsName(y) && TokenOk(Operator(o)) && !Recognized(o)
    ensures Parse(x + o + y) == Failure(UnrecognizedOperator)
  {
    ThreeTokens(x, o, y);
    NamesAround(x, o, y);
    assert IsOpChar(o[0]);
    assert Finish(State([Atom(x), Atom(y)], [Operator(o)])) == Failure(UnrecognizedOperator);
  }

  /** `parse` of a chain of two binary operators followed by an operator run of unknown spelling and a name. */
  lemma ParseUnknownAfterChain(x: string, o1: string, y: string, o2: string, z: string, o: string, w: string)
    requires IsName(x) && IsName(y) && IsName(z) && IsName(w)
    requires BinaryOf(o1).Some? && BinaryOf(o2).Some? && TokenOk(Operator(o)) && !Recognized(o)
    ensures Parse(x + o1 + y + o2 + z + o + w) == Failure(UnrecognizedOperator)
  {
    UnknownAfterChainTokens(x, o1, y, o2, z, o, w);
    RunUnknownAfterChain(x, o1, y, o2, z, o, w);
  }

  /** The tokens of a chain followed by an operator run and a name. */
  lemma UnknownAfterChainTokens(x: string, o1: string, y: string, o2: string, z: string, o: string, w: string)
    requires IsName(x) && IsName(y) && IsName(z) && IsName(w)
    requires TokenOk(Operator(o1)) && TokenOk(Operator(o2)) && TokenOk(Operator(o))
    ensures Tokenize(x + o1 + y + o2 + z + o + w) == Chained(x, o1, y, o2, z) + ([Operator(o)] + [Name(w)])
  {
    FiveText(x, o1, y, o2, z);
    Prepend(Name(w), [], []);
    assert [Name(w)] + [] == [Name(w)] && w + [] == w;
    JoinText(Chained(x, o1, y, o2, z), x + o1 + y + o2 + z, o, [Name(w)], w);
  }

  /** The main loop stops at an operator of unknown spelling after a chain. */
  lemma RunUnknownAfterChain(x: string, o1: string, y: string, o2: string, z: string, o: string, w: string)
    requires BinaryOf(o1).Some? && BinaryOf(o2).Some? && !Recognized(o)
    ensures Run(Start, Chained(x, o1, y, o2, z) + ([Operator(o)] + [Name(w)])) == Failure(UnrecognizedOperator)
  {
    var five := Chained(x, o1, y, o2, z);
    NamesAround(x, o1, y);
    RunAppend(Start, [Name(x), Operator(o1), Name(y)], [Operator(o2), Name(z)]);
    assert [Name(x), Operator(o1), Name(y)] + [Operator(o2), Name(z)] == five;
    ChainTail(Atom(x), o1, Atom(y), o2, z);
    var st := Run(Start, five).value;
    RunAppend(Start, five, [Operator(o)] + [Name(w)]);
    assert PopHigher(Operator(o), st) == Failure(UnrecognizedOperator);
    assert Step(st, Operator(o)) == Failure(UnrecognizedOperator);
  }
}
