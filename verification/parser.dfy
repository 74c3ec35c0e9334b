/**
 * The shunting-yard parser: operator tokens wait on a stack until an operator
 * of lower precedence, a closing parenthesis or the end of input sends them to
 * the output stack, where each builds a node from the formulas on top.
 */
module Parser {
  import opened Wrappers
  import opened Types
  import opened Tokenizer

  /** The errors `parse` throws: from the parenthesis checks, the operator lookup, or node construction. */
  datatype ParseError = MismatchedParenthesis | UnrecognizedOperator | Construction(cause: ConstructError)

  /** The two stacks of the algorithm; the top of each is its last element. */
  datatype State = State(output: seq<Expr>, ops: seq<Token>)

  const Start := State([], [])

  /** The spellings of negation. */
  predicate IsNegation(v: string) {
    v == "¬" || v == "!"
  }

  /** The connective a binary operator spelling stands for. */
  function BinaryOf(v: string): Option<Op> {
    if v == "->" || v == "→" then Some(Impl)
    else if v == "<->" || v == "↔" then Some(Eqv)
    else if v == "∧" || v == "&" then Some(And)
    else if v == "∨" || v == "|" then Some(Or)
    else None
  }

  /** One of the ten operator spellings. */
  predicate Recognized(v: string) {
    IsNegation(v) || BinaryOf(v).Some?
  }

  /** The number of formulas an operator spelling takes from the output. */
  function Needed(v: string): nat {
    if IsNegation(v) then 1 else 2
  }

  /**
   * `precedence`: → and ↔ (spelled -> → <-> ↔) bind weakest, ∧ and ∨ (spelled
   * ∧ & ∨ |) tighter, negation (¬ !) tightest; any other spelling is an
   * unrecognized operator.
   */
  function Precedence(t: Token): (r: Result<nat, ParseError>)
    ensures r.Success? <==> Recognized(t.value)
    ensures r.Failure? ==> r.error == UnrecognizedOperator
    ensures r.Success? ==> r.value <= 2
    ensures r.Success? ==> (r.value == 2 <==> IsNegation(t.value))
    ensures r.Success? ==> (r.value == 0 <==> BinaryOf(t.value) in {Some(Impl), Some(Eqv)})
  {
    var b := BinaryOf(t.value);
    if b == Some(Impl) || b == Some(Eqv) then Success(0)
    else if b == Some(And) || b == Some(Or) then Success(1)
    else if IsNegation(t.value) then Success(2)
    else Failure(UnrecognizedOperator)
  }

  /** Popping the output: its top as an argument and the rest, or no argument at all from an empty stack. */
  function Pop(output: seq<Expr>): (Arg, seq<Expr>) {
    if output == [] then (Invalid, []) else (Formula(output[|output| - 1]), output[..|output| - 1])
  }

  function Lift<T>(r: Result<T, ConstructError>): Result<T, ParseError> {
    if r.Success? then Success(r.value) else Failure(Construction(r.error))
  }

  /**
   * `out`: applies an operator to the formulas on top of the output stack,
   * the topmost as the right argument. A stack too short leaves an argument
   * undefined, which the node constructor rejects with a TypeError.
   */
  function Out(op: Token, output: seq<Expr>): (r: Result<seq<Expr>, ParseError>)
    ensures !Recognized(op.value) ==> r == Failure(UnrecognizedOperator)
    ensures Recognized(op.value) && |output| < Needed(op.value) ==> r == Failure(Construction(TypeError))
    ensures r.Success? <==> Recognized(op.value) && |output| >= Needed(op.value)
    ensures r.Success? ==>
      var keep := |output| - Needed(op.value);
      |r.value| == keep + 1 && r.value[..keep] == output[..keep] &&
      r.value[keep] == (if IsNegation(op.value) then Neg(output[keep])
                        else Bin(BinaryOf(op.value).value, output[keep], output[keep + 1]))
  {
    if IsNegation(op.value) then
      var (arg, rest) := Pop(output);
      var e :- Lift(Construct(Symbol(NotAction), Some([arg])));
      Success(rest + [e])
    else match BinaryOf(op.value)
      case None => Failure(UnrecognizedOperator)
      case Some(b) =>
        var (right, rest) := Pop(output);
        var (left, rest') := Pop(rest);
        var e :- Lift(Construct(Symbol(BinAction(b)), Some([left, right])));
        Success(rest' + [e])
  }

  /**
   * The inner loop for an incoming operator: while the top of the operator
   * stack is an operator of strictly higher precedence, send it to the output.
   */
  function PopHigher(t: Token, st: State): Result<State, ParseError>
    decreases |st.ops|
  {
    if st.ops == [] then Success(st)
    else
      var last := st.ops[|st.ops| - 1];
      if last.kind == ParenKind then Success(st)
      else
        var pt :- Precedence(t);
        var pl :- Precedence(last);
        if pt >= pl then Success(st)
        else
          var output :- Out(last, st.output);
          PopHigher(t, State(output, st.ops[..|st.ops| - 1]))
  }

  /**
   * A closing parenthesis: operators go to the output down to the matching
   * opening parenthesis, which is dropped; running out of operators first is
   * a mismatched parenthesis.
   */
  function CloseParen(st: State): Result<State, ParseError>
    decreases |st.ops|
  {
    if st.ops == [] then Failure(MismatchedParenthesis)
    else
      var op := st.ops[|st.ops| - 1];
      var rest := st.ops[..|st.ops| - 1];
      if op.value == "(" then Success(State(st.output, rest))
      else
        var output :- Out(op, st.output);
        CloseParen(State(output, rest))
  }

  /**
   * One token of the main loop: an operator waits on the stack after the
   * stronger ones are sent out, a name goes to the output as an atom, an
   * opening parenthesis waits on the stack and a closing one unwinds it.
   * The token types exclude one another, so at most one case applies.
   */
  function Step(st: State, t: Token): Result<State, ParseError> {
    match t.kind
    case OpKind =>
      var st' :- PopHigher(t, st);
      Success(State(st'.output, st'.ops + [t]))
    case VarKind =>
      Success(State(st.output + [Atom(t.value)], st.ops))
    case ParenKind =>
      if t.value == "(" then Success(State(st.output, st.ops + [t]))
      else if t.value == ")" then CloseParen(st)
      else Success(st)
  }

  /** The main loop over the tokens, stopping at the first error. */
  function Run(st: State, ts: seq<Token>): Result<State, ParseError>
    decreases |ts|
  {
    if ts == [] then Success(st)
    else
      var st' :- Step(st, ts[0]);
      Run(st', ts[1..])
  }

  /**
   * The final loop: every operator left is sent to the output, top first; a
   * parenthesis left on the stack is a mismatched parenthesis.
   */
  function Finish(st: State): (r: Result<seq<Expr>, ParseError>)
    decreases |st.ops|
  {
    if st.ops == [] then Success(st.output)
    else
      var op := st.ops[|st.ops| - 1];
      if op.value == "(" || op.value == ")" then Failure(MismatchedParenthesis)
      else
        var output :- Out(op, st.output);
        Finish(State(output, st.ops[..|st.ops| - 1]))
  }

  /** The parser over a token sequence: the bottom of the output stack, or nothing when it is empty. */
  function ParseTokens(ts: seq<Token>): Result<Option<Expr>, ParseError> {
    var st :- Run(Start, ts);
    var output :- Finish(st);
    Success(if output == [] then None else Some(output[0]))
  }

  /** `parse`: the formula a string denotes. */
  function Parse(s: string): Result<Option<Expr>, ParseError> {
    ParseTokens(Tokenize(s))
  }
}
