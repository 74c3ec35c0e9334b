/**
 * Truth-table semantics: evaluation of a formula under an assignment, the
 * enumeration of all assignments of a list of variables by bit mask, and the
 * brute-force equivalence check built on them.
 */
module Semantics {
  import opened Types

  /** A total assignment of truth values to atom names. */
  type Valuation = string -> bool

  /**
   * The meaning of a formula whose actions are all among the five connectives:
   * implication is `¬a ∨ b` and equivalence `(¬a ∨ b) ∧ (¬b ∨ a)`.
   */
  function Eval(e: Expr, v: Valuation): bool
    requires Known(e)
  {
    match e
    case Atom(x) => v(x)
    case Neg(a) => !Eval(a, v)
    case Bin(op, l, r) =>
      var a := Eval(l, v);
      var b := Eval(r, v);
      match op
      case And => a && b
      case Or => a || b
      case Impl => !a || b
      case Eqv => (!a || b) && (!b || a)
      case Other(_) => false
  }

  /** Evaluation reads an assignment only at the formula's own atoms. */
  lemma {:induction false} EvalDependsOnAtoms(e: Expr, v1: Valuation, v2: Valuation)
    requires Known(e)
    requires forall x | x in Atoms(e) :: v1(x) == v2(x)
    ensures Eval(e, v1) == Eval(e, v2)
  {
    match e
    case Atom(_) =>
    case Neg(a) =>
      EvalDependsOnAtoms(a, v1, v2);
    case Bin(_, l, r) =>
      EvalDependsOnAtoms(l, v1, v2);
      EvalDependsOnAtoms(r, v1, v2);
  }

  /** The values a JavaScript evaluation can produce: a boolean, or `undefined`. */
  datatype JsValue = JsTrue | JsFalse | Undefined

  function FromBool(b: bool): JsValue {
    if b then JsTrue else JsFalse
  }

  predicate Truthy(x: JsValue) {
    x == JsTrue
  }

  /** JavaScript `!x`. */
  function JsNot(x: JsValue): JsValue {
    FromBool(!Truthy(x))
  }

  /** JavaScript `x && y`: the left operand when it is falsy, else the right one. */
  function JsAnd(x: JsValue, y: JsValue): JsValue {
    if Truthy(x) then y else x
  }

  /** JavaScript `x || y`: the left operand when it is truthy, else the right one. */
  function JsOr(x: JsValue, y: JsValue): JsValue {
    if Truthy(x) then x else y
  }

  /** The total assignment that reads a finite one, with `false` for names it lacks. */
  function ValuationOf(m: map<string, bool>): Valuation {
    x => if x in m then m[x] else false
  }

  /**
   * `evaluate`: an atom reads the assignment object (`undefined` when absent),
   * and a node whose action is none of the five falls through to `undefined`.
   * On formulas of the five connectives whose atoms are all assigned it
   * agrees with `Eval`.
   */
  function Evaluate(e: Expr, values: map<string, bool>): (r: JsValue)
    ensures Known(e) && Atoms(e) <= values.Keys ==> r == FromBool(Eval(e, ValuationOf(values)))
  {
    match e
    case Atom(x) => if x in values then FromBool(values[x]) else Undefined
    case Neg(a) => JsNot(Evaluate(a, values))
    case Bin(op, l, r) =>
      var a := Evaluate(l, values);
      var b := Evaluate(r, values);
      match op
      case And => JsAnd(a, b)
      case Or => JsOr(a, b)
      case Impl => JsOr(JsNot(a), b)
      case Eqv => JsAnd(JsOr(JsNot(a), b), JsOr(JsNot(b), a))
      case Other(_) => Undefined
  }

  /** 2 to the power n: the number of combinations `enumerateAll` yields, taking `1 << n` as exact. */
  function Pow2(n: nat): (r: nat)
    ensures r >= 1
  {
    if n == 0 then 1 else 2 * Pow2(n - 1)
  }

  /**
   * The JavaScript `1 << n` itself: the shift count is taken modulo 32 and the
   * result is read as a signed 32-bit integer.
   */
  function ShiftOne(n: nat): int {
    var k := n % 32;
    if k == 31 then -0x8000_0000 else Pow2(k)
  }

  lemma {:induction false} Pow2Grows(k: nat, n: nat)
    requires k < n
    decreases n
    ensures Pow2(k) < Pow2(n)
  {
    if k < n - 1 {
      Pow2Grows(k, n - 1);
    }
  }

  /**
   * `1 << n` is the power of two exactly for n up to 30. At 31 it is negative,
   * so the enumeration loop runs no round; from 32 on it wraps round to
   * `1 << (n % 32)`, smaller than 2 to the n.
   */
  lemma ShiftOneAgrees(n: nat)
    ensures ShiftOne(n) == Pow2(n) <==> n <= 30
    ensures n == 31 ==> ShiftOne(n) < 0
    ensures n >= 32 ==> ShiftOne(n) == ShiftOne(n - 32)
  {
    if n >= 32 {
      assert (n - 32) % 32 == n % 32;
      if n % 32 != 31 {
        Pow2Grows(n % 32, n);
      }
    }
  }

  /** Bit j of i, the test `(i & (1 << j)) > 0`. */
  predicate Bit(i: nat, j: nat) {
    if j == 0 then i % 2 == 1 else Bit(i / 2, j - 1)
  }

  predicate Distinct<T(==)>(s: seq<T>) {
    forall i, j | 0 <= i < j < |s| :: s[i] != s[j]
  }

  function ToSet<T>(s: seq<T>): set<T> {
    set x | x in s
  }

  /**
   * The object built for combination i after the first k variables are set:
   * variable j gets bit j of i, in order, so a later duplicate name wins.
   */
  function AssignPrefix(vars: seq<string>, i: nat, k: nat): (m: map<string, bool>)
    requires k <= |vars|
    ensures m.Keys == ToSet(vars[..k])
  {
    if k == 0 then map[]
    else
      assert vars[..k] == vars[..k - 1] + [vars[k - 1]];
      AssignPrefix(vars, i, k - 1)[vars[k - 1] := Bit(i, k - 1)]
  }

  /** A variable not overwritten later in the prefix holds its own bit of i. */
  lemma {:induction false} AssignPrefixValues(vars: seq<string>, i: nat, k: nat, j: nat)
    requires j < k <= |vars|
    requires vars[j] !in vars[j + 1..k]
    ensures AssignPrefix(vars, i, k)[vars[j]] == Bit(i, j)
  {
    if j < k - 1 {
      assert vars[k - 1] in vars[j + 1..k];
      assert vars[j + 1..k - 1] <= vars[j + 1..k];
      AssignPrefixValues(vars, i, k - 1, j);
    }
  }

  /** The i-th assignment yielded by `enumerateAll`. */
  function Assignment(vars: seq<string>, i: nat): (m: map<string, bool>)
    ensures m.Keys == ToSet(vars)
  {
    assert vars[..|vars|] == vars;
    AssignPrefix(vars, i, |vars|)
  }

  /** For distinct variables, variable j of the i-th assignment is bit j of i. */
  lemma AssignmentBits(vars: seq<string>, i: nat)
    requires Distinct(vars)
    ensures forall j | 0 <= j < |vars| :: Assignment(vars, i)[vars[j]] == Bit(i, j)
  {
    forall j | 0 <= j < |vars|
      ensures Assignment(vars, i)[vars[j]] == Bit(i, j)
    {
      assert vars[..|vars|] == vars;
      assert vars[j] !in vars[j + 1..|vars|];
      AssignPrefixValues(vars, i, |vars|, j);
    }
  }

  /** `enumerateAll`: the assignments for combinations 0 .. 2^n - 1, in order. */
  function EnumerateAll(vars: seq<string>): (r: seq<map<string, bool>>)
    ensures |r| == Pow2(|vars|)
    ensures forall i | 0 <= i < |r| :: r[i].Keys == ToSet(vars)
  {
    seq(Pow2(|vars|), i requires 0 <= i => Assignment(vars, i))
  }

  /** The number of the combination that produces an assignment: bit j holds vars[j]'s value. */
  function Index(vars: seq<string>, m: map<string, bool>): nat
    requires forall j | 0 <= j < |vars| :: vars[j] in m
  {
    if vars == [] then 0 else (if m[vars[0]] then 1 else 0) + 2 * Index(vars[1..], m)
  }

  /** An assignment whose values are the bits of i sits at combination number i. */
  lemma {:induction false} IndexOfBits(vars: seq<string>, m: map<string, bool>, i: nat)
    requires i < Pow2(|vars|)
    requires forall j | 0 <= j < |vars| :: vars[j] in m && m[vars[j]] == Bit(i, j)
    ensures Index(vars, m) == i
  {
    if vars != [] {
      forall j | 0 <= j < |vars[1..]|
        ensures vars[1..][j] in m && m[vars[1..][j]] == Bit(i / 2, j)
      {
        assert vars[1..][j] == vars[j + 1];
      }
      IndexOfBits(vars[1..], m, i / 2);
    }
  }

  /** The combination number of an assignment is below 2^n and its bits are the values. */
  lemma {:induction false} BitsOfIndex(vars: seq<string>, m: map<string, bool>)
    requires forall j | 0 <= j < |vars| :: vars[j] in m
    ensures Index(vars, m) < Pow2(|vars|)
    ensures forall j | 0 <= j < |vars| :: Bit(Index(vars, m), j) == m[vars[j]]
  {
    if vars != [] {
      var rest := vars[1..];
      assert forall j | 0 <= j < |rest| :: rest[j] == vars[j + 1];
      BitsOfIndex(rest, m);
      var n := Index(vars, m);
      assert n / 2 == Index(rest, m);
      forall j | 0 <= j < |vars|
        ensures Bit(n, j) == m[vars[j]]
      {
        if j > 0 {
          assert Bit(n, j) == Bit(n / 2, j - 1);
          assert rest[j - 1] == vars[j];
        }
      }
    }
  }

  /** Combination i of distinct variables is produced at position i and nowhere else. */
  lemma IndexOfAssignment(vars: seq<string>, i: nat)
    requires Distinct(vars)
    requires i < Pow2(|vars|)
    ensures Index(vars, Assignment(vars, i)) == i
  {
    AssignmentBits(vars, i);
    IndexOfBits(vars, Assignment(vars, i), i);
  }

  /** Every assignment of exactly the given distinct variables is combination number Index. */
  lemma AssignmentOfIndex(vars: seq<string>, m: map<string, bool>)
    requires Distinct(vars)
    requires m.Keys == ToSet(vars)
    ensures Index(vars, m) < Pow2(|vars|)
    ensures Assignment(vars, Index(vars, m)) == m
  {
    BitsOfIndex(vars, m);
    AssignmentBits(vars, Index(vars, m));
    var a := Assignment(vars, Index(vars, m));
    forall x | x in m
      ensures a[x] == m[x]
    {
      var j :| 0 <= j < |vars| && vars[j] == x;
    }
  }

  /** The assignments `enumerateAll` yields for distinct variables are pairwise distinct. */
  lemma EnumeratedAssignmentsDistinct(vars: seq<string>)
    requires Distinct(vars)
    ensures Distinct(EnumerateAll(vars))
  {
    var r := EnumerateAll(vars);
    forall i, j | 0 <= i < j < |r|
      ensures r[i] != r[j]
    {
      IndexOfAssignment(vars, i);
      IndexOfAssignment(vars, j);
    }
  }

  /** Every assignment of exactly the given distinct variables is among those yielded. */
  lemma EnumerationCovers(vars: seq<string>, m: map<string, bool>)
    requires Distinct(vars)
    requires m.Keys == ToSet(vars)
    ensures m in EnumerateAll(vars)
  {
    AssignmentOfIndex(vars, m);
    assert EnumerateAll(vars)[Index(vars, m)] == m;
  }

  /**
   * `collectElements` run on top of an insertion-ordered set `acc`: adds each
   * atom not yet present, left argument before right.
   */
  function CollectElements(e: Expr, acc: seq<string>): (r: seq<string>)
    ensures acc <= r
    ensures ToSet(r) == ToSet(acc) + Atoms(e)
    ensures Distinct(acc) ==> Distinct(r)
  {
    match e
    case Atom(x) => if x in acc then acc else acc + [x]
    case Neg(a) => CollectElements(a, acc)
    case Bin(_, l, r) => CollectElements(r, CollectElements(l, acc))
  }

  /** `Array.from(vars)` after collecting the atoms of A and then of B. */
  function VariablesOf(a: Expr, b: Expr): (r: seq<string>)
    ensures Distinct(r)
    ensures ToSet(r) == Atoms(a) + Atoms(b)
  {
    CollectElements(b, CollectElements(a, []))
  }

  /** `eq`: A and B give the same value under every enumerated assignment. */
  function Eq(a: Expr, b: Expr): bool {
    var combinations := EnumerateAll(VariablesOf(a, b));
    forall k | 0 <= k < |combinations| :: Evaluate(a, combinations[k]) == Evaluate(b, combinations[k])
  }

  /** `eq` holds exactly when A and B agree under every assignment to their combined atoms. */
  lemma EqIffAgreeOnAtoms(a: Expr, b: Expr)
    ensures Eq(a, b) <==>
      forall m: map<string, bool> | m.Keys == Atoms(a) + Atoms(b) :: Evaluate(a, m) == Evaluate(b, m)
  {
    var vars := VariablesOf(a, b);
    var combinations := EnumerateAll(vars);
    if Eq(a, b) {
      forall m: map<string, bool> | m.Keys == Atoms(a) + Atoms(b)
        ensures Evaluate(a, m) == Evaluate(b, m)
      {
        EnumerationCovers(vars, m);
      }
    }
  }

  /** The assignment of a set of names read off a total valuation. */
  function Restrict(v: Valuation, names: set<string>): (m: map<string, bool>)
    ensures m.Keys == names
  {
    map x | x in names :: v(x)
  }

  /** Evaluating against a valuation restricted to a superset of the atoms gives `Eval`. */
  lemma EvaluateRestricted(e: Expr, v: Valuation, names: set<string>)
    requires Known(e)
    requires Atoms(e) <= names
    ensures Evaluate(e, Restrict(v, names)) == FromBool(Eval(e, v))
  {
    var m := Restrict(v, names);
    assert forall x | x in Atoms(e) :: ValuationOf(m)(x) == v(x);
    EvalDependsOnAtoms(e, v, ValuationOf(m));
  }

  /** For formulas of the five connectives, `eq` is logical equivalence. */
  lemma EqIffEquivalent(a: Expr, b: Expr)
    requires Known(a) && Known(b)
    ensures Eq(a, b) <==> forall v: Valuation :: Eval(a, v) == Eval(b, v)
  {
    EqIffAgreeOnAtoms(a, b);
    var atoms := Atoms(a) + Atoms(b);
    if Eq(a, b) {
      forall v: Valuation
        ensures Eval(a, v) == Eval(b, v)
      {
        EvaluateRestricted(a, v, atoms);
        EvaluateRestricted(b, v, atoms);
      }
    } else {
      var m: map<string, bool> :| m.Keys == atoms && Evaluate(a, m) != Evaluate(b, m);
      assert Eval(a, ValuationOf(m)) != Eval(b, ValuationOf(m));
    }
  }

  /** `eq` is reflexive and symmetric. */
  lemma EqReflexiveSymmetric(a: Expr, b: Expr)
    ensures Eq(a, a)
    ensures Eq(a, b) == Eq(b, a)
  {
    EqIffAgreeOnAtoms(a, b);
    EqIffAgreeOnAtoms(b, a);
    assert Atoms(a) + Atoms(b) == Atoms(b) + Atoms(a);
  }
}
