/**
 * What the parser's two checks guarantee: a parse succeeds only on balanced
 * parentheses and known operator spellings, and each of the two errors is
 * raised only when its cause is present in the input.
 */
module ParserFacts {
  import opened Wrappers
  import opened Types
  import opened Tokenizer
  import opened Parser

  /** The change in nesting depth a token makes. */
  function Delta(t: Token): int {
    if t.kind == ParenKind && t.value == "(" then 1
    else if t.kind == ParenKind && t.value == ")" then -1
    else 0
  }

  /** Opening minus closing parentheses. */
  function Depth(ts: seq<Token>): int
    decreases |ts|
  {
    if ts == [] then 0 else Delta(ts[0]) + Depth(ts[1..])
  }

  /** No prefix closes more parentheses than it opens, and the whole closes all it opens. */
  predicate Balanced(ts: seq<Token>) {
    Depth(ts) == 0 && forall k | 0 <= k <= |ts| :: Depth(ts[..k]) >= 0
  }

  /** An operator token with a spelling outside the ten known ones. */
  predicate Unknown(t: Token) {
    t.kind == OpKind && !Recognized(t.value)
  }

  /** The opening parentheses waiting on an operator stack. */
  function Opens(ops: seq<Token>): nat {
    if ops == [] then 0
    else Opens(ops[..|ops| - 1]) + (if ops[|ops| - 1].value == "(" then 1 else 0)
  }

  /** A stack the main loop builds: operator runs and opening parentheses. */
  predicate GoodOps(ops: seq<Token>) {
    forall t | t in ops :: Waiting(t)
  }

  /** A token that may wait on the operator stack: an operator not spelled as a parenthesis, or an opening parenthesis. */
  predicate Waiting(t: Token) {
    (t.kind == OpKind && t.value != "(" && t.value != ")") || t == Token(ParenKind, "(")
  }

  /** An operator run is never spelled as a parenthesis. */
  lemma OperatorNotParen(t: Token)
    requires t.kind == OpKind && TokenOk(t)
    ensures t.value != "(" && t.value != ")"
  {
    assert KindOf(t.value[0]) == OpKind;
  }

  lemma DepthCons(t: Token, ts: seq<Token>, k: nat)
    requires 1 <= k <= |ts| + 1
    ensures Depth(([t] + ts)[..k]) == Delta(t) + Depth(ts[..k - 1])
  {
    assert ([t] + ts)[..k] == [t] + ts[..k - 1];
    assert ([t] + ts[..k - 1])[1..] == ts[..k - 1];
  }

  /** A non-empty sequence is its front followed by its last element. */
  lemma SplitLast<T>(s: seq<T>)
    requires s != []
    ensures s == s[..|s| - 1] + [s[|s| - 1]]
  {
  }

  /** The front of a stack the main loop built is one too. */
  lemma GoodOpsFront(ops: seq<Token>)
    requires GoodOps(ops) && ops != []
    ensures GoodOps(ops[..|ops| - 1])
  {
  }

  /** Popping an operator run off the stack keeps the opening parentheses and the stack's shape. */
  lemma PopOperator(ops: seq<Token>)
    requires GoodOps(ops) && ops != [] && ops[|ops| - 1].value != "("
    ensures GoodOps(ops[..|ops| - 1]) && Opens(ops[..|ops| - 1]) == Opens(ops)
    ensures ops[|ops| - 1].kind == OpKind
    ensures forall u | u in ops :: u in ops[..|ops| - 1] || u == ops[|ops| - 1]
  {
    assert ops[|ops| - 1] in ops;
    SplitLast(ops);
  }

  /** The operator stack after popping for an incoming operator, against the one before: the same opening parentheses, and only recognized operators gone. */
  predicate PopsRecognized(before: seq<Token>, after: seq<Token>) {
    GoodOps(after) && Opens(after) == Opens(before) &&
    forall u | u in before && u.kind == OpKind :: u in after || Recognized(u.value)
  }

  /** Operators sent out while an operator arrives were recognized; the parentheses stay. */
  lemma PopHigherKeeps(t: Token, st: State)
    requires GoodOps(st.ops) && PopHigher(t, st).Success?
    ensures PopsRecognized(st.ops, PopHigher(t, st).value.ops)
  {
    PopHigherReaches(t, st, PopHigher(t, st).value);
  }

  /** The same, for the state the popping reaches, by induction over the operators it sends out. */
  lemma {:induction false} PopHigherReaches(t: Token, st: State, res: State)
    requires GoodOps(st.ops) && PopHigher(t, st) == Success(res)
    decreases |st.ops|, 1
    ensures PopsRecognized(st.ops, res.ops)
  {
    if PopHigherPops(t, st) {
      var next := PopHigherStep(t, st, res);
      PopHigherOn(t, st, next, res);
    } else {
      PopHigherStays(t, st);
    }
  }

  /** The inductive step: the top, a recognized operator, is gone, and the rest pops to the same state. */
  lemma {:induction false} PopHigherOn(t: Token, st: State, next: State, res: State)
    requires GoodOps(st.ops) && st.ops != [] && st.ops[|st.ops| - 1].kind != ParenKind
    requires Recognized(st.ops[|st.ops| - 1].value)
    requires next.ops == st.ops[..|st.ops| - 1] && PopHigher(t, next) == Success(res)
    decreases |st.ops|, 0
    ensures PopsRecognized(st.ops, res.ops)
  {
    GoodOpsFront(st.ops);
    PopHigherReaches(t, next, res);
    PopsBelow(st.ops, next.ops, res.ops);
  }

  /** Whether the incoming operator sends out the top of the stack: an operator that binds tighter. */
  predicate PopHigherPops(t: Token, st: State) {
    st.ops != [] && st.ops[|st.ops| - 1].kind != ParenKind &&
    Precedence(t).Success? && Precedence(st.ops[|st.ops| - 1]).Success? &&
    Precedence(t).value < Precedence(st.ops[|st.ops| - 1]).value
  }

  /** When the top is not sent out, a successful popping stops at once. */
  lemma PopHigherStays(t: Token, st: State)
    requires PopHigher(t, st).Success? && !PopHigherPops(t, st)
    ensures PopHigher(t, st) == Success(st)
  {
  }

  /** When the top is sent out, it was a recognized operator, and the popping goes on below it to the same state. */
  lemma PopHigherStep(t: Token, st: State, res: State) returns (next: State)
    requires PopHigher(t, st) == Success(res) && PopHigherPops(t, st)
    ensures st.ops != [] && st.ops[|st.ops| - 1].kind != ParenKind && Recognized(st.ops[|st.ops| - 1].value)
    ensures next.ops == st.ops[..|st.ops| - 1] && PopHigher(t, next) == Success(res)
    ensures Out(st.ops[|st.ops| - 1], st.output) == Success(next.output)
  {
    next := State(Out(st.ops[|st.ops| - 1], st.output).value, st.ops[..|st.ops| - 1]);
  }

  /** A recognized operator on top of a stack whose rest pops to after: the whole pops to after as well. */
  lemma PopsBelow(stack: seq<Token>, front: seq<Token>, after: seq<Token>)
    requires GoodOps(stack) && stack != [] && stack[|stack| - 1].kind != ParenKind && Recognized(stack[|stack| - 1].value)
    requires front == stack[..|stack| - 1] && PopsRecognized(front, after)
    ensures PopsRecognized(stack, after)
  {
    PopOperator(stack);
  }

  /** Sending out stronger operators never reports a parenthesis, and reports an unknown spelling only when one is there. */
  lemma {:induction false} PopHigherErrors(t: Token, st: State)
    requires GoodOps(st.ops) && t.kind == OpKind
    decreases |st.ops|
    ensures PopHigher(t, st) != Failure(MismatchedParenthesis)
    ensures PopHigher(t, st) == Failure(UnrecognizedOperator) ==> Unknown(t) || exists u | u in st.ops :: Unknown(u)
  {
    if st.ops != [] {
      var last := st.ops[|st.ops| - 1];
      assert last in st.ops;
      if last.kind != ParenKind && Recognized(t.value) && Recognized(last.value) {
        var pt := Precedence(t).value;
        var pl := Precedence(last).value;
        if pt < pl && Out(last, st.output).Success? {
          PopOperator(st.ops);
          PopHigherErrors(t, State(Out(last, st.output).value, st.ops[..|st.ops| - 1]));
        }
      }
    }
  }

  /** The opening parenthesis on top of a stack the main loop built. */
  lemma PopOpen(ops: seq<Token>)
    requires GoodOps(ops) && ops != [] && ops[|ops| - 1].value == "("
    ensures GoodOps(ops[..|ops| - 1]) && Opens(ops) == Opens(ops[..|ops| - 1]) + 1
    ensures forall u | u in ops && u.kind == OpKind :: u in ops[..|ops| - 1]
  {
    var op := ops[|ops| - 1];
    assert op in ops;
    assert op.kind == ParenKind;
    SplitLast(ops);
  }

  /** The operator stack after a closing parenthesis, against the one before: one opening parenthesis fewer, and only recognized operators gone. */
  predicate ClosesOne(before: seq<Token>, after: seq<Token>) {
    GoodOps(after) && Opens(before) >= 1 && Opens(after) == Opens(before) - 1 &&
    forall u | u in before && u.kind == OpKind :: u in after || Recognized(u.value)
  }

  /** A closing parenthesis removes one opening parenthesis; the operators above it were recognized. */
  lemma CloseParenKeeps(st: State)
    requires GoodOps(st.ops) && CloseParen(st).Success?
    ensures ClosesOne(st.ops, CloseParen(st).value.ops)
  {
    CloseParenReaches(st, CloseParen(st).value);
  }

  /** The same, for the state a closing parenthesis reaches, by induction over the operators it sends out. */
  lemma {:induction false} CloseParenReaches(st: State, res: State)
    requires GoodOps(st.ops) && CloseParen(st) == Success(res)
    decreases |st.ops|
    ensures ClosesOne(st.ops, res.ops)
  {
    if st.ops[|st.ops| - 1].value == "(" {
      CloseParenAtOpen(st);
    } else {
      var next := CloseParenStep(st, res);
      GoodOpsFront(st.ops);
      CloseParenReaches(next, res);
      ClosesOneBelow(st.ops, next.ops, res.ops);
    }
  }

  /** A closing parenthesis right after an opening one just drops it. */
  lemma CloseParenAtOpen(st: State)
    requires GoodOps(st.ops) && st.ops != [] && st.ops[|st.ops| - 1].value == "("
    ensures CloseParen(st).Success? && ClosesOne(st.ops, CloseParen(st).value.ops)
  {
    assert CloseParen(st) == Success(State(st.output, st.ops[..|st.ops| - 1]));
    PopOpen(st.ops);
  }

  /** A closing parenthesis with a recognized operator on top sends it to the output and reaches the same state from the rest. */
  lemma CloseParenStep(st: State, res: State) returns (next: State)
    requires CloseParen(st) == Success(res) && st.ops != [] && st.ops[|st.ops| - 1].value != "("
    ensures Recognized(st.ops[|st.ops| - 1].value)
    ensures next.ops == st.ops[..|st.ops| - 1] && CloseParen(next) == Success(res)
    ensures Out(st.ops[|st.ops| - 1], st.output) == Success(next.output)
  {
    next := State(Out(st.ops[|st.ops| - 1], st.output).value, st.ops[..|st.ops| - 1]);
  }

  /** A recognized operator on top of a stack, above a part that a closing parenthesis reduces to after: the whole reduces to after as well. */
  lemma ClosesOneBelow(stack: seq<Token>, front: seq<Token>, after: seq<Token>)
    requires GoodOps(stack) && stack != [] && stack[|stack| - 1].value != "(" && Recognized(stack[|stack| - 1].value)
    requires front == stack[..|stack| - 1] && ClosesOne(front, after)
    ensures ClosesOne(stack, after)
  {
    PopOperator(stack);
  }

  /** A closing parenthesis reports a mismatch only when no parenthesis is open. */
  lemma {:induction false} CloseParenErrors(st: State)
    requires GoodOps(st.ops)
    decreases |st.ops|
    ensures CloseParen(st) == Failure(MismatchedParenthesis) ==> Opens(st.ops) == 0
    ensures CloseParen(st) == Failure(UnrecognizedOperator) ==> exists u | u in st.ops :: Unknown(u)
  {
    if st.ops != [] {
      var op := st.ops[|st.ops| - 1];
      var rest := st.ops[..|st.ops| - 1];
      if op.value != "(" {
        PopOperator(st.ops);
        assert op in st.ops;
        var out := Out(op, st.output);
        if out.Success? {
          CloseParenErrors(State(out.value, rest));
        }
      }
    }
  }

  /** The final loop succeeds only when no parenthesis waits and every waiting operator is recognized. */
  lemma {:induction false} FinishFacts(st: State)
    requires GoodOps(st.ops)
    decreases |st.ops|
    ensures var r := Finish(st);
      (r.Success? ==> Opens(st.ops) == 0 && forall u | u in st.ops :: u.kind == OpKind && Recognized(u.value)) &&
      (r == Failure(MismatchedParenthesis) ==> Opens(st.ops) > 0) &&
      (r == Failure(UnrecognizedOperator) ==> exists u | u in st.ops :: Unknown(u))
  {
    if st.ops != [] {
      var op := st.ops[|st.ops| - 1];
      var rest := st.ops[..|st.ops| - 1];
      if op.value == "(" || op.value == ")" {
        assert op in st.ops;
        assert op.value == "(";
      } else {
        PopOperator(st.ops);
        assert op in st.ops;
        var out := Out(op, st.output);
        if out.Success? {
          FinishFacts(State(out.value, rest));
        }
      }
    }
  }

  /** What one successful step does to the operator stack: the depth it adds, and where the waiting operators went. */
  predicate StepFacts(before: seq<Token>, t: Token, after: seq<Token>) {
    GoodOps(after) && Opens(after) == Opens(before) + Delta(t) &&
    (forall u | u in before && u.kind == OpKind :: u in after || Recognized(u.value)) &&
    (t.kind == OpKind ==> t in after)
  }

  /** One successful token step: the depth it adds, and where the waiting operators went. */
  lemma StepKeeps(st: State, t: Token)
    requires GoodOps(st.ops) && TokenOk(t) && Step(st, t).Success?
    ensures StepFacts(st.ops, t, Step(st, t).value.ops)
  {
    match t.kind
    case OpKind =>
      PopHigherKeeps(t, st);
      var ops := PopHigher(t, st).value.ops + [t];
      assert ops[..|ops| - 1] == PopHigher(t, st).value.ops;
      OperatorNotParen(t);
    case VarKind =>
    case ParenKind =>
      if t.value == "(" {
        var ops := st.ops + [t];
        assert ops[..|ops| - 1] == st.ops;
      } else if t.value == ")" {
        CloseParenKeeps(st);
      }
  }

  /** One failing token step: the cause of each error. */
  lemma StepErrors(st: State, t: Token)
    requires GoodOps(st.ops) && TokenOk(t)
    ensures Step(st, t) == Failure(MismatchedParenthesis) ==> Delta(t) == -1 && Opens(st.ops) == 0
    ensures Step(st, t) == Failure(UnrecognizedOperator) ==> Unknown(t) || exists u | u in st.ops :: Unknown(u)
  {
    match t.kind
    case OpKind =>
      PopHigherErrors(t, st);
    case VarKind =>
    case ParenKind =>
      CloseParenErrors(st);
  }

  /**
   * What a successful main loop does to the operator stack: the stack stays
   * one the loop builds, its opening parentheses change by the input's depth,
   * no prefix of the input closes more parentheses than were open, and every
   * operator, waiting before or read from the input, still waits or was
   * recognized.
   */
  predicate RunFacts(before: seq<Token>, ts: seq<Token>, after: seq<Token>) {
    GoodOps(after) && Opens(after) == Opens(before) + Depth(ts) &&
    (forall k | 0 <= k <= |ts| :: Opens(before) + Depth(ts[..k]) >= 0) &&
    (forall u | u in before && u.kind == OpKind :: u in after || Recognized(u.value)) &&
    (forall i | 0 <= i < |ts| && ts[i].kind == OpKind :: ts[i] in after || Recognized(ts[i].value))
  }

  lemma RunKeeps(st: State, ts: seq<Token>)
    requires GoodOps(st.ops)
    requires forall i | 0 <= i < |ts| :: TokenOk(ts[i])
    requires Run(st, ts).Success?
    ensures RunFacts(st.ops, ts, Run(st, ts).value.ops)
  {
    RunReaches(st, ts, Run(st, ts).value);
  }

  /** The same, for the state the loop reaches, by induction over the tokens. */
  lemma {:induction false} RunReaches(st: State, ts: seq<Token>, res: State)
    requires GoodOps(st.ops)
    requires forall i | 0 <= i < |ts| :: TokenOk(ts[i])
    requires Run(st, ts) == Success(res)
    decreases |ts|
    ensures RunFacts(st.ops, ts, res.ops)
  {
    if ts == [] {
      assert Run(st, ts) == Success(st);
    } else {
      RunStep(st, ts, res);
      var mid := Step(st, ts[0]).value;
      StepKeeps(st, ts[0]);
      RunReaches(mid, ts[1..], res);
      RunFactsCons(st.ops, ts, mid.ops, res.ops);
    }
  }

  /** A successful loop over a non-empty input takes a successful step and goes on from there to the same state. */
  lemma RunStep(st: State, ts: seq<Token>, res: State)
    requires ts != [] && Run(st, ts) == Success(res)
    ensures Step(st, ts[0]).Success? && Run(Step(st, ts[0]).value, ts[1..]) == Success(res)
  {
  }

  /** The facts for a first step and for the loop over the rest give the facts for the whole input. */
  lemma RunFactsCons(before: seq<Token>, ts: seq<Token>, mid: seq<Token>, after: seq<Token>)
    requires ts != [] && StepFacts(before, ts[0], mid) && RunFacts(mid, ts[1..], after)
    ensures RunFacts(before, ts, after)
  {
    var t := ts[0];
    var rest := ts[1..];
    forall k | 1 <= k <= |ts|
      ensures Depth(ts[..k]) == Delta(t) + Depth(rest[..k - 1])
    {
      assert ts == [t] + rest;
      DepthCons(t, rest, k);
    }
    assert forall i | 1 <= i < |ts| :: ts[i] == rest[i - 1];
  }
  /** A main loop failing on a parenthesis has a prefix closing more parentheses than are open. */
  lemma {:induction false} RunMismatch(st: State, ts: seq<Token>)
    requires GoodOps(st.ops)
    requires forall i | 0 <= i < |ts| :: TokenOk(ts[i])
    requires Run(st, ts) == Failure(MismatchedParenthesis)
    decreases |ts|
    ensures exists k | 0 <= k <= |ts| :: Opens(st.ops) + Depth(ts[..k]) < 0
  {
    var t := ts[0];
    var rest := ts[1..];
    assert ts == [t] + rest;
    StepErrors(st, t);
    var s := Step(st, t);
    if s.Failure? {
      DepthCons(t, rest, 1);
      assert Opens(st.ops) + Depth(ts[..1]) < 0;
    } else {
      StepKeeps(st, t);
      RunMismatch(s.value, rest);
      var k :| 0 <= k <= |rest| && Opens(s.value.ops) + Depth(rest[..k]) < 0;
      DepthCons(t, rest, k + 1);
      assert Opens(st.ops) + Depth(ts[..k + 1]) < 0;
    }
  }

  /** A successful parse saw balanced parentheses; a mismatched-parenthesis error saw unbalanced ones. */
  lemma ParenthesesChecked(s: string)
    ensures Parse(s).Success? ==> Balanced(Tokenize(s))
    ensures Parse(s) == Failure(MismatchedParenthesis) ==> !Balanced(Tokenize(s))
  {
    var ts := Tokenize(s);
    TokenizeShape(s);
    var r := Run(Start, ts);
    if r.Success? {
      RunKeeps(Start, ts);
      FinishFacts(r.value);
      assert ts[..|ts|] == ts;
    } else if r.error == MismatchedParenthesis {
      RunMismatch(Start, ts);
    }
  }

  /** Some token of the sequence is an operator with an unknown spelling. */
  predicate HasUnknown(ts: seq<Token>) {
    exists i | 0 <= i < |ts| :: Unknown(ts[i])
  }

  /** An unknown operator among the rest of the tokens is one among all of them. */
  lemma HasUnknownCons(t: Token, rest: seq<Token>)
    ensures HasUnknown([t] + rest) <==> Unknown(t) || HasUnknown(rest)
  {
    var ts := [t] + rest;
    assert ts[0] == t;
    if HasUnknown(rest) {
      var i :| 0 <= i < |rest| && Unknown(rest[i]);
      assert ts[i + 1] == rest[i];
    }
    if HasUnknown(ts) {
      var i :| 0 <= i < |ts| && Unknown(ts[i]);
      if i > 0 {
        assert rest[i - 1] == ts[i];
      }
    }
  }

  /** A prefix of the front of a non-empty sequence is a prefix of the whole. */
  lemma PrefixOfFront<T>(s: seq<T>, front: seq<T>, p: seq<T>)
    requires s != [] && front == s[..|s| - 1] && p <= front
    ensures p <= s && |p| < |s|
  {
  }

  /** Popping for an incoming operator only removes operators from the top of the stack. */
  lemma {:induction false} PopHigherPrefix(t: Token, st: State, res: State)
    requires PopHigher(t, st) == Success(res)
    decreases |st.ops|
    ensures res.ops <= st.ops
  {
    if PopHigherPops(t, st) {
      var next := PopHigherStep(t, st, res);
      PopHigherPrefix(t, next, res);
      PrefixOfFront(st.ops, next.ops, res.ops);
    } else {
      PopHigherStays(t, st);
    }
  }

  /** A closing parenthesis only removes operators from the top of the stack, and removes at least one. */
  lemma {:induction false} CloseParenPrefix(st: State, res: State)
    requires CloseParen(st) == Success(res)
    decreases |st.ops|
    ensures |res.ops| < |st.ops| && res.ops <= st.ops
  {
    if st.ops[|st.ops| - 1].value == "(" {
      CloseParenDrops(st);
    } else {
      var next := CloseParenStep(st, res);
      CloseParenPrefix(next, res);
      PrefixOfFront(st.ops, next.ops, res.ops);
    }
  }

  /** Every operator waiting after a step was waiting before it or is the step's token. */
  lemma StepOrigin(st: State, t: Token)
    requires Step(st, t).Success?
    ensures forall u | u in Step(st, t).value.ops :: u in st.ops || u == t
  {
    var ops := Step(st, t).value.ops;
    forall u | u in ops
      ensures u in st.ops || u == t
    {
      var j :| 0 <= j < |ops| && ops[j] == u;
      if t.kind == OpKind {
        PopHigherPrefix(t, st, PopHigher(t, st).value);
        var p := PopHigher(t, st).value.ops;
        if j < |p| {
          assert p[j] == st.ops[j];
        }
      } else if t.kind == ParenKind && t.value == ")" {
        CloseParenPrefix(st, CloseParen(st).value);
        var p := CloseParen(st).value.ops;
        assert p[j] == st.ops[j];
      } else if t.kind == ParenKind && t.value == "(" {
        if j < |st.ops| {
          assert ops[j] == st.ops[j];
        }
      }
    }
  }

  /** Every operator waiting after the main loop was waiting before it or came from the input. */
  lemma {:induction false} RunOrigin(st: State, ts: seq<Token>)
    requires Run(st, ts).Success?
    decreases |ts|
    ensures forall u | u in Run(st, ts).value.ops :: u in st.ops || u in ts
  {
    if ts != [] {
      var st' := Step(st, ts[0]).value;
      StepOrigin(st, ts[0]);
      RunOrigin(st', ts[1..]);
      assert forall u | u in ts[1..] :: u in ts;
    }
  }

  /** A main loop failing on an operator spelling met an unknown one, in the input or already waiting. */
  lemma {:induction false} RunUnknown(st: State, ts: seq<Token>)
    requires GoodOps(st.ops)
    requires forall i | 0 <= i < |ts| :: TokenOk(ts[i])
    requires Run(st, ts) == Failure(UnrecognizedOperator)
    decreases |ts|
    ensures HasUnknown(ts) || HasUnknown(st.ops)
  {
    var t := ts[0];
    var rest := ts[1..];
    assert ts == [t] + rest;
    HasUnknownCons(t, rest);
    StepErrors(st, t);
    var s := Step(st, t);
    if s.Failure? {
      assert s == Failure(UnrecognizedOperator);
      if !Unknown(t) {
        var u :| u in st.ops && Unknown(u);
        var j :| 0 <= j < |st.ops| && st.ops[j] == u;
      }
    } else {
      assert Run(s.value, rest) == Failure(UnrecognizedOperator);
      StepKeeps(st, t);
      StepOrigin(st, t);
      RunUnknown(s.value, rest);
      if !HasUnknown(rest) {
        var j :| 0 <= j < |s.value.ops| && Unknown(s.value.ops[j]);
        var u := s.value.ops[j];
        assert u in s.value.ops;
        if u != t {
          assert u in st.ops;
          var k :| 0 <= k < |st.ops| && st.ops[k] == u;
        }
      }
    }
  }

  /** A parse of tokens succeeds only if every operator among them is recognized. */
  lemma KnownOperatorsOnSuccess(ts: seq<Token>)
    requires forall i | 0 <= i < |ts| :: TokenOk(ts[i])
    requires ParseTokens(ts).Success?
    ensures !HasUnknown(ts)
  {
    var r := Run(Start, ts).value;
    RunKeeps(Start, ts);
    FinishFacts(r);
    forall i | 0 <= i < |ts|
      ensures !Unknown(ts[i])
    {
      if ts[i].kind == OpKind && ts[i] in r.ops {
        assert Recognized(ts[i].value);
      }
    }
  }

  /** A parse of tokens reports an unknown operator only if one is among them. */
  lemma UnknownOperatorHasCause(ts: seq<Token>)
    requires forall i | 0 <= i < |ts| :: TokenOk(ts[i])
    requires ParseTokens(ts) == Failure(UnrecognizedOperator)
    ensures HasUnknown(ts)
  {
    var r := Run(Start, ts);
    if r.Failure? {
      RunUnknown(Start, ts);
    } else {
      RunKeeps(Start, ts);
      FinishFacts(r.value);
      RunOrigin(Start, ts);
      var u :| u in r.value.ops && Unknown(u);
      var i :| 0 <= i < |ts| && ts[i] == u;
    }
  }

  /** A successful parse saw only known operator spellings; an unrecognized-operator error saw an unknown one. */
  lemma OperatorsChecked(s: string)
    ensures Parse(s).Success? ==> !HasUnknown(Tokenize(s))
    ensures Parse(s) == Failure(UnrecognizedOperator) ==> HasUnknown(Tokenize(s))
  {
    TokenizeShape(s);
    if Parse(s).Success? {
      KnownOperatorsOnSuccess(Tokenize(s));
    } else if Parse(s) == Failure(UnrecognizedOperator) {
      UnknownOperatorHasCause(Tokenize(s));
    }
  }

  /** A node built by an operator has a known connective and known arguments. */
  lemma OutKnown(op: Token, output: seq<Expr>)
    requires AllKnown(output) && Out(op, output).Success?
    ensures AllKnown(Out(op, output).value)
  {
    var r := Out(op, output).value;
    var keep := |output| - Needed(op.value);
    assert forall i | 0 <= i < keep :: r[i] == output[..keep][i] == output[i];
    assert Known(output[keep]);
    if !IsNegation(op.value) {
      assert Known(output[keep + 1]);
    }
  }

  lemma PopHigherKnown(t: Token, st: State)
    requires AllKnown(st.output) && PopHigher(t, st).Success?
    ensures AllKnown(PopHigher(t, st).value.output)
  {
    PopHigherKnownReaches(t, st, PopHigher(t, st).value);
  }

  /** The same, for the state the popping reaches, by induction over the operators it sends out. */
  lemma {:induction false} PopHigherKnownReaches(t: Token, st: State, res: State)
    requires AllKnown(st.output) && PopHigher(t, st) == Success(res)
    decreases |st.ops|
    ensures AllKnown(res.output)
  {
    if PopHigherPops(t, st) {
      var next := PopHigherStep(t, st, res);
      OutKnown(st.ops[|st.ops| - 1], st.output);
      PopHigherKnownReaches(t, next, res);
    } else {
      PopHigherStays(t, st);
    }
  }

  lemma CloseParenKnown(st: State)
    requires AllKnown(st.output) && CloseParen(st).Success?
    ensures AllKnown(CloseParen(st).value.output)
  {
    CloseParenKnownReaches(st, CloseParen(st).value);
  }

  /** A closing parenthesis with an opening one on top just drops it. */
  lemma CloseParenDrops(st: State)
    requires st.ops != [] && st.ops[|st.ops| - 1].value == "("
    ensures CloseParen(st) == Success(State(st.output, st.ops[..|st.ops| - 1]))
  {
  }

  /** The same, for the state a closing parenthesis reaches, by induction over the operators it sends out. */
  lemma {:induction false} CloseParenKnownReaches(st: State, res: State)
    requires AllKnown(st.output) && CloseParen(st) == Success(res)
    decreases |st.ops|
    ensures AllKnown(res.output)
  {
    if st.ops[|st.ops| - 1].value == "(" {
      CloseParenDrops(st);
    } else {
      var next := CloseParenStep(st, res);
      OutKnown(st.ops[|st.ops| - 1], st.output);
      CloseParenKnownReaches(next, res);
    }
  }

  lemma {:induction false} RunKnown(st: State, ts: seq<Token>)
    requires AllKnown(st.output) && Run(st, ts).Success?
    decreases |ts|
    ensures AllKnown(Run(st, ts).value.output)
  {
    if ts != [] {
      var t := ts[0];
      if t.kind == OpKind {
        PopHigherKnown(t, st);
      } else if t.kind == ParenKind && t.value == ")" {
        CloseParenKnown(st);
      }
      RunKnown(Step(st, t).value, ts[1..]);
    }
  }

  lemma {:induction false} FinishKnown(st: State)
    requires AllKnown(st.output) && Finish(st).Success?
    decreases |st.ops|
    ensures AllKnown(Finish(st).value)
  {
    if st.ops != [] {
      var op := st.ops[|st.ops| - 1];
      OutKnown(op, st.output);
      FinishKnown(State(Out(op, st.output).value, st.ops[..|st.ops| - 1]));
    }
  }

  /** A formula `parse` returns uses only the four connectives, so `toString` renders it. */
  lemma ParsedKnown(s: string)
    requires Parse(s).Success? && Parse(s).value.Some?
    ensures Known(Parse(s).value.value)
    ensures Render(Parse(s).value.value).Success?
  {
    var ts := Tokenize(s);
    RunKnown(Start, ts);
    FinishKnown(Run(Start, ts).value);
  }
}
