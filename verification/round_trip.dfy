/**
 * `toString` followed by `parse`: every formula whose rendering the tokenizer
 * can split back into its pieces is read back as itself.
 */
module RoundTrip {
  import opened Wrappers
  import opened Types
  import opened Tokenizer
  import opened Parser
  import opened ParserExamples

  /**
   * A formula whose rendering reads back: known connectives, names the
   * tokenizer keeps whole, and no negation right after another operator
   * (the tokenizer would merge the two into one unknown operator run).
   */
  predicate Readable(e: Expr) {
    match e
    case Atom(x) => IsName(x)
    case Neg(a) => !a.Neg? && Readable(a)
    case Bin(op, l, r) => !op.Other? && !r.Neg? && Readable(l) && Readable(r)
  }

  /** The tokens of a readable formula's rendering. */
  function Toks(e: Expr): (r: seq<Token>)
    requires Readable(e)
    ensures |r| > 0 && r[|r| - 1].kind != OpKind
    ensures !e.Neg? ==> r[0].kind != OpKind
  {
    match e
    case Atom(x) => [Name(x)]
    case Neg(a) => [Operator("¬")] + Toks(a)
    case Bin(op, l, r) => [Open] + Toks(l) + [Operator(SymbolOf(op))] + Toks(r) + [Close]
  }

  /** The connective symbols are recognized spellings of their own connective. */
  lemma SymbolSpelling(op: Op)
    requires !op.Other?
    ensures BinaryOf(SymbolOf(op)) == Some(op)
    ensures TokenOk(Operator(SymbolOf(op)))
  {
  }

  /** A prefix Strip keeps, a text, whitespace and a run: the whitespace inside the text and before the run is dropped. */
  lemma StripAround(p: string, ls: string, w: string, sym: string)
    requires Strip(p) == p
    requires forall i | 0 <= i < |w| :: IsSpace(w[i])
    requires forall i | 0 <= i < |sym| :: !IsSpace(sym[i])
    ensures Strip(p + ls + w + sym) == p + Strip(ls) + sym
  {
    StripAppend(p, ls);
    StripPiece(p + ls, w, sym);
  }

  /** Dropping the whitespace of the front of a rendered binary node, up to its symbol. */
  lemma StripFront(ls: string, sym: string)
    requires forall i | 0 <= i < |sym| :: !IsSpace(sym[i])
    ensures Strip("(" + ls + " " + sym) == "(" + Strip(ls) + sym
  {
    StripNoSpace("(");
    StripAround("(", ls, " ", sym);
  }

  /** Dropping the whitespace of a rendered binary node, piece by piece from the left. */
  lemma StripBin(ls: string, sym: string, rs: string)
    requires forall i | 0 <= i < |sym| :: !IsSpace(sym[i])
    ensures Strip("(" + ls + " " + sym + " " + rs + ")") == "(" + Strip(ls) + sym + Strip(rs) + ")"
  {
    StripNoSpace(")");
    StripSpaces(" ");
    var t3 := "(" + ls + " " + sym;
    StripFront(ls, sym);
    var t4 := t3 + " ";
    StripAppend(t3, " ");
    assert Strip(t4) == "(" + Strip(ls) + sym;
    var t5 := t4 + rs;
    StripAppend(t4, rs);
    StripAppend(t5, ")");
  }

  /** One more token after well-formed tokens it cannot merge with, and the text. */
  lemma Snoc(ts: seq<Token>, s: string, t: Token)
    requires WellFormed(ts) && Flatten(ts) == s && TokenOk(t)
    requires ts != [] ==> Separated(ts[|ts| - 1], t)
    ensures WellFormed(ts + [t]) && Flatten(ts + [t]) == s + t.value
  {
    var r := ts + [t];
    assert Flatten(r) == s + t.value by {
      assert r[..|ts|] == ts;
    }
    forall i | 0 <= i < |r|
      ensures TokenOk(r[i])
    {
      if i < |ts| {
        assert r[i] == ts[i];
      }
    }
    forall i | 0 <= i < |r| - 1
      ensures Separated(r[i], r[i + 1])
    {
      assert r[i] == ts[i];
      if i + 1 < |ts| {
        assert r[i + 1] == ts[i + 1];
      }
    }
  }

  /** Two well-formed token sequences that cannot merge at the seam, and their text. */
  lemma Join(a: seq<Token>, sa: string, b: seq<Token>, sb: string)
    requires WellFormed(a) && Flatten(a) == sa && WellFormed(b) && Flatten(b) == sb
    requires a != [] && b != [] ==> Separated(a[|a| - 1], b[0])
    ensures WellFormed(a + b) && Flatten(a + b) == sa + sb
    ensures b != [] ==> (a + b)[|a + b| - 1] == b[|b| - 1]
  {
    WellFormedAppend(a, b);
    FlattenAppend(a, b);
  }

  /** The tokens of a binary node written with the given side tokens. */
  function BinToks(tl: seq<Token>, sym: string, tr: seq<Token>): seq<Token> {
    [Open] + tl + [Operator(sym)] + tr + [Close]
  }

  /** The opening parenthesis alone is well-formed and writes "(". */
  lemma OpenText()
    ensures WellFormed([Open]) && Flatten([Open]) == "("
  {
    Snoc([], [], Open);
    assert [] + [Open] == [Open];
  }

  /** The opening parenthesis, the left side's tokens and the operator: well-formed, and their text. */
  lemma LeftHalf(tl: seq<Token>, ls: string, sym: string)
    requires WellFormed(tl) && Flatten(tl) == ls && TokenOk(Operator(sym))
    requires |tl| > 0 && tl[|tl| - 1].kind != OpKind
    ensures WellFormed([Open] + tl + [Operator(sym)]) && Flatten([Open] + tl + [Operator(sym)]) == "(" + ls + sym
  {
    OpenText();
    var a := [Open] + tl;
    Join([Open], "(", tl, ls);
    Snoc(a, "(" + ls, Operator(sym));
  }

  /** The right side's tokens and the closing parenthesis: well-formed, and their text. */
  lemma RightHalf(tr: seq<Token>, rs: string)
    requires WellFormed(tr) && Flatten(tr) == rs
    requires |tr| > 0
    ensures WellFormed(tr + [Close]) && Flatten(tr + [Close]) == rs + ")"
    ensures (tr + [Close])[0] == tr[0]
  {
    Snoc(tr, rs, Close);
  }

  /** The tokens of a rendered binary node from those of its two sides: well-formed, and their text. */
  lemma BinText(tl: seq<Token>, ls: string, sym: string, tr: seq<Token>, rs: string)
    requires WellFormed(tl) && Flatten(tl) == ls && WellFormed(tr) && Flatten(tr) == rs
    requires TokenOk(Operator(sym))
    requires |tl| > 0 && tl[|tl| - 1].kind != OpKind
    requires |tr| > 0 && tr[0].kind != OpKind
    ensures WellFormed(BinToks(tl, sym, tr))
    ensures Flatten(BinToks(tl, sym, tr)) == "(" + ls + sym + rs + ")"
  {
    var a := [Open] + tl + [Operator(sym)];
    var b := tr + [Close];
    LeftHalf(tl, ls, sym);
    RightHalf(tr, rs);
    Join(a, "(" + ls + sym, b, rs + ")");
    assert a + b == BinToks(tl, sym, tr);
    assert "(" + ls + sym + (rs + ")") == "(" + ls + sym + rs + ")";
  }

  /** The rendered text of a binary node from the texts of its sides, and its tokens. */
  lemma BinStripText(tl: seq<Token>, ls: string, sym: string, tr: seq<Token>, rs: string)
    requires WellFormed(tl) && Flatten(tl) == Strip(ls) && WellFormed(tr) && Flatten(tr) == Strip(rs)
    requires TokenOk(Operator(sym))
    requires |tl| > 0 && tl[|tl| - 1].kind != OpKind
    requires |tr| > 0 && tr[0].kind != OpKind
    ensures WellFormed(BinToks(tl, sym, tr))
    ensures Flatten(BinToks(tl, sym, tr)) == Strip("(" + ls + " " + sym + " " + rs + ")")
  {
    StripBin(ls, sym, rs);
    BinText(tl, Strip(ls), sym, tr, Strip(rs));
  }

  /** A binary node of a known connective renders as its sides around its symbol, in parentheses. */
  lemma RenderBin(op: Op, l: Expr, r: Expr)
    requires !op.Other? && Render(l).Success? && Render(r).Success?
    ensures Render(Bin(op, l, r)) == Success("(" + Render(l).value + " " + SymbolOf(op) + " " + Render(r).value + ")")
  {
    assert Translate(op) == Success(SymbolOf(op));
  }

  /** The tokens of a readable binary node, from those of its sides. */
  lemma ToksOfBin(op: Op, l: Expr, r: Expr)
    requires Readable(Bin(op, l, r))
    ensures Toks(Bin(op, l, r)) == BinToks(Toks(l), SymbolOf(op), Toks(r))
  {
  }

  /** The text step of a binary node. */
  lemma RenderTextBin(op: Op, l: Expr, r: Expr)
    requires Readable(Bin(op, l, r))
    requires Render(l).Success? && WellFormed(Toks(l)) && Flatten(Toks(l)) == Strip(Render(l).value)
    requires Render(r).Success? && WellFormed(Toks(r)) && Flatten(Toks(r)) == Strip(Render(r).value)
    ensures Render(Bin(op, l, r)).Success?
    ensures WellFormed(Toks(Bin(op, l, r))) && Flatten(Toks(Bin(op, l, r))) == Strip(Render(Bin(op, l, r)).value)
  {
    RenderBin(op, l, r);
    ToksOfBin(op, l, r);
    SymbolSpelling(op);
    BinStripText(Toks(l), Render(l).value, SymbolOf(op), Toks(r), Render(r).value);
  }

  /** The negation mark is a one-character operator token. */
  lemma NegationToken()
    ensures TokenOk(Operator("¬")) && Strip("¬") == "¬"
  {
    SpellingIsRun("¬");
    StripNoSpace("¬");
  }

  /** The negation mark before the tokens of a rendering that starts with no operator: well-formed, and their text. */
  lemma NegText(ta: seq<Token>, s: string)
    requires WellFormed(ta) && Flatten(ta) == Strip(s)
    requires ta != [] ==> ta[0].kind != OpKind
    ensures WellFormed([Operator("¬")] + ta) && Flatten([Operator("¬")] + ta) == Strip("¬" + s)
  {
    NegationToken();
    StripAppend("¬", s);
    Prepend(Operator("¬"), ta, Strip(s));
  }

  /** The text step of a negation. */
  lemma RenderTextNeg(a: Expr)
    requires Readable(Neg(a))
    requires Render(a).Success? && WellFormed(Toks(a)) && Flatten(Toks(a)) == Strip(Render(a).value)
    ensures Render(Neg(a)).Success?
    ensures WellFormed(Toks(Neg(a))) && Flatten(Toks(Neg(a))) == Strip(Render(Neg(a)).value)
  {
    var s := Render(a).value;
    assert Render(Neg(a)) == Success("¬" + s);
    NegText(Toks(a), s);
  }

  /** A readable formula renders, and its tokens are well-formed and write out its rendering without whitespace. */
  lemma {:induction false} RenderText(e: Expr)
    requires Readable(e)
    decreases e
    ensures Render(e).Success?
    ensures WellFormed(Toks(e)) && Flatten(Toks(e)) == Strip(Render(e).value)
  {
    match e
    case Atom(x) =>
      StripNoSpace(x);
      Prepend(Name(x), [], []);
      assert [Name(x)] + [] == [Name(x)] && x + [] == x;
    case Neg(a) =>
      RenderText(a);
      RenderTextNeg(a);
    case Bin(op, l, r) =>
      RenderText(l);
      RenderText(r);
      RenderTextBin(op, l, r);
  }

  /** The tokenizer splits the rendering of a readable formula into its tokens. */
  lemma RenderTokens(e: Expr)
    requires Readable(e)
    ensures Render(e).Success? && Tokenize(Render(e).value) == Toks(e)
  {
    RenderText(e);
    WhitespaceIgnored(Render(e).value);
    TokenizeFlatten(Toks(e));
  }

  /** What a readable formula leaves on the output stack: a leading negation is still waiting as an operator. */
  function Core(e: Expr): Expr {
    if e.Neg? then e.arg else e
  }

  /** The operator a readable formula leaves waiting: its leading negation, if any. */
  function Pending(e: Expr): seq<Token> {
    if e.Neg? then [Operator("¬")] else []
  }

  /** An operator stack whose top does not bind tighter than a negation. */
  predicate Admits(ops: seq<Token>) {
    ops == [] || ops[|ops| - 1].kind == ParenKind || Recognized(ops[|ops| - 1].value)
  }

  /** A negation pops nothing: it waits on top of the stack. */
  lemma NegationWaits(st: State)
    requires Admits(st.ops)
    ensures Step(st, Operator("¬")) == Success(State(st.output, st.ops + [Operator("¬")]))
  {
    assert PopHigher(Operator("¬"), st) == Success(st);
  }

  /** A binary operator after the left side of a group sends out that side's waiting negation, and stops at the parenthesis. */
  lemma PopPending(out: seq<Expr>, ops: seq<Token>, l: Expr, sym: string)
    requires BinaryOf(sym).Some?
    ensures PopHigher(Operator(sym), State(out + [Core(l)], ops + [Open] + Pending(l))) ==
      Success(State(out + [l], ops + [Open]))
  {
    if l.Neg? {
      var st := State(out + [l.arg], ops + [Open] + [Operator("¬")]);
      var o := Out(Operator("¬"), st.output).value;
      assert st.output[..|out|] == out;
      assert o[..|out|] == out && o[|out|] == l && |o| == |out| + 1;
      assert o == out + [l];
      assert st.ops[..|st.ops| - 1] == ops + [Open];
      assert PopHigher(Operator(sym), st) == PopHigher(Operator(sym), State(out + [l], ops + [Open]));
    } else {
      assert ops + [Open] + [] == ops + [Open];
    }
  }

  /** The loop over the tokens of a negation, from its operand's run. */
  lemma RunNeg(st: State, a: Expr)
    requires Readable(Neg(a)) && Admits(st.ops)
    requires Run(State(st.output, st.ops + [Operator("¬")]), Toks(a)) ==
      Success(State(st.output + [Core(a)], st.ops + [Operator("¬")] + Pending(a)))
    ensures Run(st, Toks(Neg(a))) == Success(State(st.output + [Core(Neg(a))], st.ops + Pending(Neg(a))))
  {
    assert st.ops + [Operator("¬")] + [] == st.ops + [Operator("¬")];
    NegationWaits(st);
    RunCons(st, Operator("¬"), Toks(a));
  }

  /** A step, a run and a step in sequence. */
  lemma StepRunStep(s1: State, a: Token, s2: State, ts: seq<Token>, s3: State, b: Token, s4: State)
    requires Step(s1, a) == Success(s2) && Run(s2, ts) == Success(s3) && Step(s3, b) == Success(s4)
    ensures Run(s1, [a] + (ts + [b])) == Success(s4)
  {
    RunAppend(s2, ts, [b]);
    RunCons(s3, b, []);
    assert [b] + [] == [b];
    RunCons(s1, a, ts + [b]);
  }

  /** A step, then a run, then another run. */
  lemma StepRunRun(s1: State, a: Token, s2: State, ts: seq<Token>, s3: State, us: seq<Token>, s4: State)
    requires Step(s1, a) == Success(s2) && Run(s2, ts) == Success(s3) && Run(s3, us) == Success(s4)
    ensures Run(s1, [a] + (ts + us)) == Success(s4)
  {
    RunAppend(s2, ts, us);
    RunCons(s1, a, ts + us);
  }

  /** The operator of a group after its left side: a waiting negation is applied, then the operator waits above the parenthesis. */
  lemma OperatorAfterLeft(out: seq<Expr>, ops: seq<Token>, l: Expr, sym: string)
    requires BinaryOf(sym).Some?
    ensures Step(State(out + [Core(l)], ops + [Open] + Pending(l)), Operator(sym)) ==
      Success(State(out + [l], ops + [Open, Operator(sym)]))
  {
    PopPending(out, ops, l, sym);
    assert ops + [Open] + [Operator(sym)] == ops + [Open, Operator(sym)];
  }

  /** The closing parenthesis of a group after its right side: the node is output and the group is closed. */
  lemma CloseAfterRight(out: seq<Expr>, ops: seq<Token>, l: Expr, sym: string, r: Expr)
    requires BinaryOf(sym).Some?
    ensures Step(State(out + [l] + [r], ops + [Open, Operator(sym)]), Close) ==
      Success(State(out + [Bin(BinaryOf(sym).value, l, r)], ops))
  {
    GroupClose(out, ops, l, sym, r);
    assert out + [l] + [r] == out + [l, r];
  }

  /** The loop over a binary node's tokens after its left side: the operator, the right side and the closing parenthesis. */
  lemma RunBinTail(st: State, op: Op, l: Expr, r: Expr)
    requires Readable(Bin(op, l, r))
    requires Run(State(st.output + [l], st.ops + [Open, Operator(SymbolOf(op))]), Toks(r)) ==
      Success(State(st.output + [l] + [r], st.ops + [Open, Operator(SymbolOf(op))]))
    ensures Run(State(st.output + [Core(l)], st.ops + [Open] + Pending(l)), [Operator(SymbolOf(op))] + (Toks(r) + [Close])) ==
      Success(State(st.output + [Bin(op, l, r)], st.ops))
  {
    var sym := SymbolOf(op);
    SymbolSpelling(op);
    OperatorAfterLeft(st.output, st.ops, l, sym);
    CloseAfterRight(st.output, st.ops, l, sym, r);
    StepRunStep(State(st.output + [Core(l)], st.ops + [Open] + Pending(l)), Operator(sym),
      State(st.output + [l], st.ops + [Open, Operator(sym)]), Toks(r),
      State(st.output + [l] + [r], st.ops + [Open, Operator(sym)]), Close,
      State(st.output + [Bin(op, l, r)], st.ops));
  }

  /** The loop over the tokens of a binary node, from its two sides' runs. */
  lemma RunBin(st: State, op: Op, l: Expr, r: Expr)
    requires Readable(Bin(op, l, r))
    requires Run(State(st.output, st.ops + [Open]), Toks(l)) ==
      Success(State(st.output + [Core(l)], st.ops + [Open] + Pending(l)))
    requires Run(State(st.output + [l], st.ops + [Open, Operator(SymbolOf(op))]), Toks(r)) ==
      Success(State(st.output + [l] + [Core(r)], st.ops + [Open, Operator(SymbolOf(op))] + Pending(r)))
    ensures Run(st, Toks(Bin(op, l, r))) == Success(State(st.output + [Core(Bin(op, l, r))], st.ops + Pending(Bin(op, l, r))))
  {
    assert Core(r) == r && Pending(r) == [];
    assert st.ops + [Open, Operator(SymbolOf(op))] + [] == st.ops + [Open, Operator(SymbolOf(op))];
    assert st.ops + [] == st.ops;
    RunBinTail(st, op, l, r);
    assert Step(st, Open) == Success(State(st.output, st.ops + [Open]));
    StepRunRun(st, Open, State(st.output, st.ops + [Open]), Toks(l),
      State(st.output + [Core(l)], st.ops + [Open] + Pending(l)), [Operator(SymbolOf(op))] + (Toks(r) + [Close]),
      State(st.output + [Bin(op, l, r)], st.ops));
    ToksBin(op, l, r);
  }

  /** The tokens of a binary node, grouped from the right as the loop consumes them. */
  lemma ToksBin(op: Op, l: Expr, r: Expr)
    requires Readable(Bin(op, l, r))
    ensures Toks(Bin(op, l, r)) == [Open] + (Toks(l) + ([Operator(SymbolOf(op))] + (Toks(r) + [Close])))
  {
    ToksOfBin(op, l, r);
    RegroupTokens(Open, Toks(l), Operator(SymbolOf(op)), Toks(r), Close);
  }

  lemma RegroupTokens(a: Token, x: seq<Token>, b: Token, y: seq<Token>, c: Token)
    ensures [a] + x + [b] + y + [c] == [a] + (x + ([b] + (y + [c])))
  {
  }

  /**
   * The main loop over the tokens of a readable formula, from any stack whose
   * top does not bind tighter than a negation: the formula is on the output,
   * up to a leading negation still waiting on the operator stack.
   */
  lemma {:induction false} RunToks(st: State, e: Expr)
    requires Readable(e) && Admits(st.ops)
    decreases e
    ensures Run(st, Toks(e)) == Success(State(st.output + [Core(e)], st.ops + Pending(e)))
  {
    match e
    case Atom(x) =>
      RunAtom(st, x);
    case Neg(a) =>
      RunToks(State(st.output, st.ops + [Operator("¬")]), a);
      RunNeg(st, a);
    case Bin(op, l, r) =>
      RunToks(State(st.output, st.ops + [Open]), l);
      SymbolSpelling(op);
      RunToks(State(st.output + [l], st.ops + [Open, Operator(SymbolOf(op))]), r);
      RunBin(st, op, l, r);
  }

  /** The loop over the one token of an atom puts the atom on the output. */
  lemma RunAtom(st: State, x: string)
    requires IsName(x)
    ensures Run(st, Toks(Atom(x))) == Success(State(st.output + [Core(Atom(x))], st.ops + Pending(Atom(x))))
  {
    RunCons(st, Name(x), []);
    assert [Name(x)] + [] == [Name(x)] && st.ops + [] == st.ops;
  }

  /** Rendering a readable formula with `toString` and parsing the text gives the formula back. */
  lemma RenderParse(e: Expr)
    requires Readable(e)
    ensures Render(e).Success?
    ensures Parse(Render(e).value) == Success(Some(e))
  {
    RenderTokens(e);
    RunToks(Start, e);
    var st := State([Core(e)], Pending(e));
    assert [] + [Core(e)] == [Core(e)] && [] + Pending(e) == Pending(e);
    FinishCore(e);
  }

  /** The final loop after a readable formula's tokens applies its waiting negation, if any, leaving the formula alone. */
  lemma FinishCore(e: Expr)
    requires Readable(e)
    ensures Finish(State([Core(e)], Pending(e))) == Success([e])
  {
    if e.Neg? {
      var o := Out(Operator("¬"), [e.arg]).value;
      assert o[..0] == [] && o[0] == e && |o| == 1;
      assert o == [e];
      assert Finish(State([Core(e)], Pending(e))) == Finish(State([e], []));
    }
  }

  /** A connective symbol followed by the negation mark is no known spelling. */
  lemma MergedSpelling(op: Op)
    requires !op.Other?
    ensures TokenOk(Operator(SymbolOf(op) + "¬")) && !Recognized(SymbolOf(op) + "¬")
  {
    var v := SymbolOf(op) + "¬";
    assert |v| == 2 && v[1] == '¬';
    assert IsOpChar(v[0]) && IsOpChar(v[1]);
  }

  /** A group around an operator run of unknown spelling fails at the closing parenthesis. */
  lemma UnknownInGroup(x: string, o: string, y: string)
    requires TokenOk(Operator(o)) && !Recognized(o)
    ensures ParseTokens(Group(x, o, y)) == Failure(UnrecognizedOperator)
  {
    assert o[0] != '(';
    var st := State([Atom(x), Atom(y)], [Open, Operator(o)]);
    GroupOpen(Start, x, o, y);
    assert Start.output + [Atom(x), Atom(y)] == [Atom(x), Atom(y)];
    assert Start.ops + [Open, Operator(o)] == [Open, Operator(o)];
    RunAppend(Start, [Open, Name(x), Operator(o), Name(y)], [Close]);
    assert [Open, Name(x), Operator(o), Name(y)] + [Close] == Group(x, o, y);
    assert Step(st, Close) == Failure(UnrecognizedOperator);
  }

  /** The text of a binary node over atoms whose right side is negated, without its spaces. */
  lemma NegatedRightStrip(sym: string, x: string, y: string)
    requires IsName(x) && IsName(y)
    requires forall i | 0 <= i < |sym| :: !IsSpace(sym[i])
    ensures Strip("(" + x + " " + sym + " " + ("¬" + y) + ")") == GroupString(x, sym + "¬", y)
  {
    var z := "¬" + y;
    assert forall i | 0 <= i < |z| :: !IsSpace(z[i]) by {
      assert forall i | 1 <= i < |z| :: z[i] == y[i - 1];
    }
    StripBin(x, sym, z);
    StripNoSpace(x);
    StripNoSpace(z);
    Shift("(" + x, sym, "¬", y);
  }

  /** Moving a piece across a seam. */
  lemma Shift(p: string, a: string, b: string, c: string)
    ensures p + a + (b + c) == p + (a + b) + c
  {
  }

  /** The tokens of a binary node over atoms whose right side is negated: the connective and the mark form one run. */
  lemma NegatedRightTokens(sym: string, x: string, y: string)
    requires IsName(x) && IsName(y) && TokenOk(Operator(sym + "¬"))
    requires forall i | 0 <= i < |sym| :: !IsSpace(sym[i])
    ensures Tokenize("(" + x + " " + sym + " " + ("¬" + y) + ")") == Group(x, sym + "¬", y)
  {
    NegatedRightStrip(sym, x, y);
    GroupText(x, sym + "¬", y);
    TokenizeFlatten(Group(x, sym + "¬", y));
    WhitespaceIgnored("(" + x + " " + sym + " " + ("¬" + y) + ")");
  }

  /**
   * The rendering of a binary node whose right side is a negated atom: the
   * tokenizer does not end a token at a space, so the connective and the
   * negation mark become one operator run, which `parse` rejects.
   */
  lemma NegatedRightSide(op: Op, x: string, y: string)
    requires !op.Other? && IsName(x) && IsName(y)
    ensures Render(Bin(op, Atom(x), Neg(Atom(y)))) == Success("(" + x + " " + SymbolOf(op) + " " + ("¬" + y) + ")")
    ensures Parse("(" + x + " " + SymbolOf(op) + " " + ("¬" + y) + ")") == Failure(UnrecognizedOperator)
  {
    assert Render(Neg(Atom(y))) == Success("¬" + y);
    assert Translate(op) == Success(SymbolOf(op));
    MergedSpelling(op);
    SymbolSpelling(op);
    NegatedRightTokens(SymbolOf(op), x, y);
    UnknownInGroup(x, SymbolOf(op) + "¬", y);
  }
}
