/**
 * The knowledge base and the resolution engine: facts are normalized and split
 * into clause formulas; a query is proved by refutation, saturating the
 * clause set of the base plus the negated query under resolution.
 */
module Engine {
  import opened Wrappers
  import opened Types
  import opened Semantics
  import opened Normalizer

  /** A literal: an atom name, or the negation mark followed by one. */
  type Literal = string

  /** A clause: the set of its literals. */
  type Clause = set<Literal>

  /** The mark that prefixes a negated literal. */
  const NegationMark: char := '¬'

  /** The database: the clause formulas asserted so far, in order. */
  datatype KnowledgeBase = KnowledgeBase(clauses: seq<Expr>)

  predicate IsConjunction(e: Expr) {
    e.Bin? && e.op == And
  }

  /** Every formula of the sequence is true under v. */
  predicate AllHold(fs: seq<Expr>, v: Valuation)
    requires AllKnown(fs)
  {
    forall i | 0 <= i < |fs| :: Eval(fs[i], v)
  }

  lemma AllHoldAppend(fs: seq<Expr>, gs: seq<Expr>, v: Valuation)
    requires AllKnown(fs) && AllKnown(gs)
    ensures AllKnown(fs + gs)
    ensures AllHold(fs + gs, v) == (AllHold(fs, v) && AllHold(gs, v))
  {
    assert forall i | 0 <= i < |fs| :: (fs + gs)[i] == fs[i];
    assert forall i | 0 <= i < |gs| :: (fs + gs)[|fs| + i] == gs[i];
  }

  /**
   * `collectConjunctions`: the conjuncts of a formula, left before right; any
   * formula that is not a conjunction is one conjunct.
   */
  function CollectConjunctions(e: Expr): (r: seq<Expr>)
    ensures |r| >= 1
    ensures forall i | 0 <= i < |r| :: !IsConjunction(r[i])
    ensures Known(e) ==> AllKnown(r) && forall v :: AllHold(r, v) == Eval(e, v)
  {
    if IsConjunction(e) then
      var l := CollectConjunctions(e.left);
      var r := CollectConjunctions(e.right);
      assert forall v | Known(e) :: AllHold(l + r, v) == (AllHold(l, v) && AllHold(r, v)) by {
        forall v | Known(e) ensures AllHold(l + r, v) == (AllHold(l, v) && AllHold(r, v)) {
          AllHoldAppend(l, r, v);
        }
      }
      l + r
    else
      assert [e][0] == e;
      [e]
  }

  /** The conjunction nodes of a formula with a hole at each conjunct: the formula's shape as `collectConjunctions` walks it. */
  datatype Skeleton = Hole | Join(left: Skeleton, right: Skeleton)

  function SkeletonOf(e: Expr): Skeleton {
    if IsConjunction(e) then Join(SkeletonOf(e.left), SkeletonOf(e.right)) else Hole
  }

  function Holes(s: Skeleton): nat {
    match s
    case Hole => 1
    case Join(l, r) => Holes(l) + Holes(r)
  }

  /** The conjunction a skeleton stands for once its holes are filled with the pieces, left to right. */
  function Fill(s: Skeleton, pieces: seq<Expr>): Expr
    requires |pieces| == Holes(s)
  {
    match s
    case Hole => pieces[0]
    case Join(l, r) => Bin(And, Fill(l, pieces[..Holes(l)]), Fill(r, pieces[Holes(l)..]))
  }

  /**
   * The conjuncts are exactly the pieces that, put into the holes of the
   * formula's conjunction skeleton from left to right, give the formula back:
   * the formula's conjunction leaves, in order, and nothing else.
   */
  lemma {:induction false} CollectConjunctionsFills(e: Expr, pieces: seq<Expr>)
    ensures pieces == CollectConjunctions(e) <==>
      |pieces| == Holes(SkeletonOf(e)) && Fill(SkeletonOf(e), pieces) == e
  {
    if IsConjunction(e) {
      var l := CollectConjunctions(e.left);
      var k := Holes(SkeletonOf(e.left));
      if |pieces| == Holes(SkeletonOf(e)) {
        CollectConjunctionsFills(e.left, pieces[..k]);
        CollectConjunctionsFills(e.right, pieces[k..]);
        assert pieces == pieces[..k] + pieces[k..];
      }
      if pieces == CollectConjunctions(e) {
        CollectConjunctionsFills(e.left, l);
        CollectConjunctionsFills(e.right, CollectConjunctions(e.right));
        assert pieces[..k] == l && pieces[k..] == CollectConjunctions(e.right);
      }
    } else if |pieces| == 1 {
      assert pieces == [pieces[0]];
    }
  }

  /**
   * `facts`: each formula in turn is normalized and its conjuncts are appended;
   * the whole database is returned. The old clauses stay in front, no new
   * clause is a conjunction, and the new database means the old one together
   * with the asserted formulas.
   */
  function Facts(kb: KnowledgeBase, exprs: seq<Expr>): (r: KnowledgeBase)
    decreases |exprs|
    ensures kb.clauses <= r.clauses
    ensures forall i | |kb.clauses| <= i < |r.clauses| :: !IsConjunction(r.clauses[i])
    ensures AllKnown(kb.clauses) && AllKnown(exprs) ==>
      AllKnown(r.clauses) &&
      forall v :: AllHold(r.clauses, v) == (AllHold(kb.clauses, v) && AllHold(exprs, v))
  {
    if exprs == [] then kb
    else
      var added := CollectConjunctions(ToCNF(exprs[0]));
      var next := KnowledgeBase(kb.clauses + added);
      var r := Facts(next, exprs[1..]);
      if AllKnown(kb.clauses) && AllKnown(exprs) then
        assert Known(exprs[0]) && AllKnown(exprs[1..]);
        AllHoldAppend(kb.clauses, added, _ => true);
        FactsMeaning(kb.clauses, added, exprs, r.clauses);
        r
      else
        r
  }

  /** One formula's conjuncts appended, then the rest asserted: together they mean the old database and all the formulas. */
  lemma FactsMeaning(base: seq<Expr>, added: seq<Expr>, exprs: seq<Expr>, r: seq<Expr>)
    requires exprs != [] && AllKnown(base) && AllKnown(exprs) && AllKnown(added) && AllKnown(r)
    requires AllKnown(base + added) && AllKnown(exprs[1..])
    requires forall v :: AllHold(added, v) == Eval(exprs[0], v)
    requires forall v :: AllHold(r, v) == (AllHold(base + added, v) && AllHold(exprs[1..], v))
    ensures forall v :: AllHold(r, v) == (AllHold(base, v) && AllHold(exprs, v))
  {
    forall v
      ensures AllHold(r, v) == (AllHold(base, v) && AllHold(exprs, v))
    {
      AllHoldAppend(base, added, v);
      AllHoldAppend([exprs[0]], exprs[1..], v);
      assert [exprs[0]] + exprs[1..] == exprs;
    }
  }

  /** Storing one formula appends its conjuncts after normalization. */
  lemma FactsOne(kb: KnowledgeBase, e: Expr)
    ensures Facts(kb, [e]).clauses == kb.clauses + CollectConjunctions(ToCNF(e))
  {
    assert [e][1..] == [];
  }

  /** Storing two lists of formulas in one call is storing the first and then the second. */
  lemma {:induction false} FactsAppend(kb: KnowledgeBase, xs: seq<Expr>, ys: seq<Expr>)
    decreases |xs|
    ensures Facts(kb, xs + ys) == Facts(Facts(kb, xs), ys)
  {
    if xs == [] {
      assert xs + ys == ys;
    } else {
      var next := KnowledgeBase(kb.clauses + CollectConjunctions(ToCNF(xs[0])));
      assert (xs + ys)[0] == xs[0] && (xs + ys)[1..] == xs[1..] + ys;
      assert Facts(kb, xs + ys) == Facts(next, xs[1..] + ys);
      assert Facts(kb, xs) == Facts(next, xs[1..]);
      FactsAppend(next, xs[1..], ys);
    }
  }

  /** `clear`: the empty database. */
  function Clear(kb: KnowledgeBase): (r: KnowledgeBase)
    ensures r.clauses == []
  {
    KnowledgeBase([])
  }

  /** Clearing twice is clearing once, whatever the database held. */
  lemma ClearIdempotent(kb: KnowledgeBase, other: KnowledgeBase)
    ensures Clear(Clear(kb)) == Clear(kb) == Clear(other)
  {
  }

  predicate StartsNegated(l: Literal) {
    |l| > 0 && l[0] == NegationMark
  }

  /** `negate`: strips one leading negation mark, or adds one. */
  function Negate(l: Literal): Literal {
    if StartsNegated(l) then l[1..] else [NegationMark] + l
  }

  /** Negating twice gives the literal back exactly when it does not start with two marks. */
  lemma NegateInvolution(l: Literal)
    ensures Negate(Negate(l)) == l <==> !(StartsNegated(l) && StartsNegated(l[1..]))
  {
    if StartsNegated(l) && StartsNegated(l[1..]) {
      assert |Negate(Negate(l))| == |l| - 2;
    } else if StartsNegated(l) {
      assert [NegationMark] + l[1..] == l;
    } else {
      assert ([NegationMark] + l)[1..] == l;
    }
  }

  /**
   * `resolve`: the literals of A whose negation is not in B, together with
   * the literals of B whose negation is not in A.
   */
  function Resolve(a: Clause, b: Clause): (r: Clause)
    ensures r <= a + b
  {
    (set l | l in a && Negate(l) !in b) + (set l | l in b && Negate(l) !in a)
  }

  /** Resolution does not depend on the order of its arguments. */
  lemma ResolveSymmetric(a: Clause, b: Clause)
    ensures Resolve(a, b) == Resolve(b, a)
  {
  }

  /** Two clauses resolve to the empty clause exactly when each literal of either has its negation in the other. */
  lemma ResolveEmptyIff(a: Clause, b: Clause)
    ensures Resolve(a, b) == {} <==>
      (forall l | l in a :: Negate(l) in b) && (forall l | l in b :: Negate(l) in a)
  {
    if Resolve(a, b) == {} {
      forall l | l in a
        ensures Negate(l) in b
      {
        assert l !in Resolve(a, b);
      }
      forall l | l in b
        ensures Negate(l) in a
      {
        assert l !in Resolve(a, b);
      }
    }
  }

  /** A clause holding some literal together with its negation. */
  predicate IsTautology(c: Clause) {
    exists l | l in c :: Negate(l) in c
  }

  /**
   * `extractLiterals`: an atom contributes itself and a negation its rendering;
   * every other node, a conjunction included, is descended into.
   */
  function ExtractLiterals(e: Expr): (r: Result<Clause, RenderError>)
    ensures Known(e) ==> r.Success?
    ensures r.Success? ==> r.value != {}
  {
    match e
    case Atom(x) => Success({x})
    case Neg(_) =>
      var s :- Render(e);
      Success({s})
    case Bin(_, l, r) =>
      var a :- ExtractLiterals(l);
      var b :- ExtractLiterals(r);
      Success(a + b)
  }

  /** The literal's atom is true, or, for a negated literal, false. */
  predicate LiteralHolds(l: Literal, v: Valuation) {
    if StartsNegated(l) then !v(l[1..]) else v(l)
  }

  /** A disjunction of atoms and negated atoms, no atom name starting with the negation mark. */
  predicate IsClauseFormula(e: Expr) {
    match e
    case Atom(x) => !StartsNegated(x)
    case Neg(a) => a.Atom? && !StartsNegated(a.name)
    case Bin(op, l, r) => op == Or && IsClauseFormula(l) && IsClauseFormula(r)
  }

  /** The literals of a clause formula hold one of them true exactly when the formula is true. */
  lemma {:induction false} ClauseMeaning(e: Expr, v: Valuation)
    requires IsClauseFormula(e)
    ensures Known(e) && ExtractLiterals(e).Success?
    ensures Eval(e, v) <==> exists l | l in ExtractLiterals(e).value :: LiteralHolds(l, v)
  {
    match e
    case Atom(x) =>
      assert ExtractLiterals(e).value == {x};
    case Neg(a) =>
      var s := [NegationMark] + a.name;
      assert Render(e) == Success(s);
      assert s[1..] == a.name;
      assert ExtractLiterals(e).value == {s};
    case Bin(_, l, r) =>
      ClauseMeaning(l, v);
      ClauseMeaning(r, v);
      assert ExtractLiterals(e).value == ExtractLiterals(l).value + ExtractLiterals(r).value;
  }

  /** `test.map(extractLiterals)`: the literal sets in order, or the first failure. */
  function ExtractAll(fs: seq<Expr>): (r: Result<seq<Clause>, RenderError>)
    ensures r.Success? <==> forall i | 0 <= i < |fs| :: ExtractLiterals(fs[i]).Success?
    ensures r.Success? ==>
      |r.value| == |fs| && forall i | 0 <= i < |fs| :: r.value[i] == ExtractLiterals(fs[i]).value
  {
    if fs == [] then Success([])
    else
      var c :- ExtractLiterals(fs[0]);
      var rest :- ExtractAll(fs[1..]);
      assert forall i | 1 <= i < |fs| :: fs[i] == fs[1..][i - 1];
      Success([c] + rest)
  }

  /** The clause formulas `prove` starts from: a copy of the database, then the conjuncts of ¬goal. */
  function StartFormulas(kb: KnowledgeBase, goal: Expr): seq<Expr> {
    kb.clauses + CollectConjunctions(ToCNF(Neg(goal)))
  }

  function StartClauses(kb: KnowledgeBase, goal: Expr): Result<seq<Clause>, RenderError> {
    ExtractAll(StartFormulas(kb, goal))
  }

  /** Position k of cs holds a new, non-empty, non-tautological resolvent of two earlier clauses. */
  ghost predicate DerivedAt(cs: seq<Clause>, k: nat)
    requires k < |cs|
  {
    cs[k] != {} && !IsTautology(cs[k]) && cs[k] !in cs[..k] &&
    exists i, j | 0 <= i < j < k :: cs[k] == Resolve(cs[i], cs[j])
  }

  /** cs starts with init and every later clause is derived from those before it. */
  ghost predicate Derivation(init: seq<Clause>, cs: seq<Clause>) {
    init <= cs && forall k | |init| <= k < |cs| :: DerivedAt(cs, k)
  }

  /** Two clauses at different positions resolve to the empty clause. */
  predicate ResolvesToEmpty(cs: seq<Clause>) {
    exists i, j | 0 <= i < j < |cs| :: Resolve(cs[i], cs[j]) == {}
  }

  /** Some derivation from init holds a pair resolving to the empty clause. */
  ghost predicate Refutable(init: seq<Clause>) {
    exists cs :: Derivation(init, cs) && ResolvesToEmpty(cs)
  }

  /** The resolvent of a and b is non-empty and either tautological or already in cs. */
  predicate Settled(cs: seq<Clause>, a: Clause, b: Clause) {
    var r := Resolve(a, b);
    r != {} && (IsTautology(r) || r in cs)
  }

  /** Every pair at different positions is settled: a round over cs would add nothing. */
  predicate Saturated(cs: seq<Clause>) {
    forall i, j | 0 <= i < j < |cs| :: Settled(cs, cs[i], cs[j])
  }

  /** A clause past the start of a derivation differs from every clause before it. */
  lemma RepeatsOnlyInStart(init: seq<Clause>, ds: seq<Clause>, i: nat, j: nat)
    requires Derivation(init, ds)
    requires i < j < |ds|
    ensures ds[i] != ds[j] || j < |init|
  {
    if j >= |init| {
      assert DerivedAt(ds, j);
      assert ds[..j][i] == ds[i];
    }
  }

  /** Any two clauses of cs, at different positions of another derivation, are settled in cs. */
  lemma SettledInSaturated(init: seq<Clause>, cs: seq<Clause>, ds: seq<Clause>, i: nat, j: nat)
    requires Derivation(init, cs) && Saturated(cs) && Derivation(init, ds)
    requires i < j < |ds|
    requires ds[i] in cs && ds[j] in cs
    ensures Settled(cs, ds[i], ds[j])
  {
    var p :| 0 <= p < |cs| && cs[p] == ds[i];
    var q :| 0 <= q < |cs| && cs[q] == ds[j];
    if p < q {
      assert Settled(cs, cs[p], cs[q]);
    } else if q < p {
      SettledSwapped(cs, q, p);
    } else {
      RepeatsOnlyInStart(init, ds, i, j);
      SettledAtStart(init, cs, ds, i, j);
    }
  }

  /** In a saturated sequence, a later clause and an earlier one are settled too. */
  lemma SettledSwapped(cs: seq<Clause>, q: nat, p: nat)
    requires Saturated(cs) && q < p < |cs|
    ensures Settled(cs, cs[p], cs[q])
  {
    assert Settled(cs, cs[q], cs[p]);
    ResolveSymmetric(cs[p], cs[q]);
  }

  /** Two positions inside the shared start hold the same clauses in both derivations. */
  lemma SettledAtStart(init: seq<Clause>, cs: seq<Clause>, ds: seq<Clause>, i: nat, j: nat)
    requires init <= cs && init <= ds && Saturated(cs)
    requires i < j < |init|
    ensures Settled(cs, ds[i], ds[j])
  {
    assert cs[i] == init[i] == ds[i];
    assert cs[j] == init[j] == ds[j];
    assert Settled(cs, cs[i], cs[j]);
  }

  /** Every clause of any derivation from init is already in a saturated derivation from init. */
  lemma {:induction false} SaturatedContains(init: seq<Clause>, cs: seq<Clause>, ds: seq<Clause>, k: nat)
    requires Derivation(init, cs) && Saturated(cs) && Derivation(init, ds)
    requires k < |ds|
    ensures ds[k] in cs
    decreases k
  {
    if k < |init| {
      assert ds[k] == init[k] == cs[k];
    } else {
      assert DerivedAt(ds, k);
      var i, j :| 0 <= i < j < k && ds[k] == Resolve(ds[i], ds[j]);
      SaturatedContains(init, cs, ds, i);
      SaturatedContains(init, cs, ds, j);
      SettledInSaturated(init, cs, ds, i, j);
    }
  }

  /** A saturated derivation shows that no derivation from the same start reaches the empty clause. */
  lemma SaturatedNotRefutable(init: seq<Clause>, cs: seq<Clause>)
    requires Derivation(init, cs) && Saturated(cs)
    ensures !Refutable(init)
  {
    if Refutable(init) {
      var ds :| Derivation(init, ds) && ResolvesToEmpty(ds);
      var i, j :| 0 <= i < j < |ds| && Resolve(ds[i], ds[j]) == {};
      SaturatedContains(init, cs, ds, i);
      SaturatedContains(init, cs, ds, j);
      SettledInSaturated(init, cs, ds, i, j);
      assert false;
    }
  }

  /** The literals occurring in a sequence of clauses. */
  ghost function Pool(cs: seq<Clause>): (p: set<Literal>)
    ensures forall k | 0 <= k < |cs| :: cs[k] <= p
  {
    set k, l | 0 <= k < |cs| && l in cs[k] :: l
  }

  /** All sets of literals drawn from a pool. */
  ghost function Subsets(p: set<Literal>): set<Clause> {
    set c | c <= p
  }

  /**
   * The state of a round over the clauses held at its start, once the pairs
   * before (i, j) in row order are visited: the held clauses followed by the
   * added ones form a derivation from init, the added ones draw on the pool,
   * and every visited pair is settled.
   */
  ghost predicate RoundState(init: seq<Clause>, held: seq<Clause>, added: seq<Clause>, pool: set<Literal>, i: nat, j: nat) {
    Derivation(init, held + added) &&
    (forall k | 0 <= k < |added| :: added[k] <= pool) &&
    (forall p, q | 0 <= p < q < |held| && (p < i || (p == i && q < j)) :: Settled(held + added, held[p], held[q]))
  }

  /** Appending a new, non-empty, non-tautological resolvent of the pair (i, j) advances the round. */
  lemma AddResolvent(init: seq<Clause>, held: seq<Clause>, added: seq<Clause>, pool: set<Literal>, i: nat, j: nat)
    requires RoundState(init, held, added, pool, i, j)
    requires i < j < |held| && forall k | 0 <= k < |held| :: held[k] <= pool
    requires Resolve(held[i], held[j]) != {} && !IsTautology(Resolve(held[i], held[j]))
    requires Resolve(held[i], held[j]) !in held + added
    ensures RoundState(init, held, added + [Resolve(held[i], held[j])], pool, i, j + 1)
  {
    var res := Resolve(held[i], held[j]);
    var before := held + added;
    var after := held + (added + [res]);
    assert after == before + [res];
    assert after[..|before|] == before;
    assert forall k | 0 <= k < |before| :: after[k] == before[k];
    assert after[i] == held[i] && after[j] == held[j];
    assert DerivedAt(after, |before|);
    forall k | |init| <= k < |before|
      ensures DerivedAt(after, k)
    {
      assert DerivedAt(before, k);
      assert after[..k] == before[..k];
    }
    assert init <= before <= after;
    assert forall k | 0 <= k < |added| + 1 :: (added + [res])[k] <= pool;
    assert res in after;
    VisitedExtend(held, before, res, i, j);
  }

  /** Pairs settled before a clause is appended stay settled; with the pair (i, j) settled too, the visited pairs now reach (i, j + 1). */
  lemma VisitedExtend(held: seq<Clause>, before: seq<Clause>, res: Clause, i: nat, j: nat)
    requires i < j < |held|
    requires forall p, q | 0 <= p < q < |held| && (p < i || (p == i && q < j)) :: Settled(before, held[p], held[q])
    requires Settled(before + [res], held[i], held[j])
    ensures forall p, q | 0 <= p < q < |held| && (p < i || (p == i && q < j + 1)) :: Settled(before + [res], held[p], held[q])
  {
    forall p, q | 0 <= p < q < |held| && (p < i || (p == i && q < j + 1))
      ensures Settled(before + [res], held[p], held[q])
    {
      if p < i || q < j {
        assert Settled(before, held[p], held[q]);
        var r := Resolve(held[p], held[q]);
        assert r in before ==> r in before + [res];
      }
    }
  }

  /** A pair whose resolvent is non-empty and tautological or already held advances the round unchanged. */
  lemma KeepRound(init: seq<Clause>, held: seq<Clause>, added: seq<Clause>, pool: set<Literal>, i: nat, j: nat)
    requires RoundState(init, held, added, pool, i, j)
    requires i < j < |held|
    requires Settled(held + added, held[i], held[j])
    ensures RoundState(init, held, added, pool, i, j + 1)
  {
  }

  /** After the whole row i, the round stands at the start of row i + 1. */
  lemma NextRow(init: seq<Clause>, held: seq<Clause>, added: seq<Clause>, pool: set<Literal>, i: nat)
    requires RoundState(init, held, added, pool, i, |held|)
    ensures RoundState(init, held, added, pool, i + 1, 0)
  {
  }

  /**
   * One round of `prove` over the clauses held at its start: every pair in
   * row order is resolved; an empty resolvent stops the round, and every new
   * resolvent that is not a tautology is collected.
   */
  method Round(ghost init: seq<Clause>, clauses: seq<Clause>, ghost pool: set<Literal>) returns (found: bool, newClauses: seq<Clause>)
    requires Derivation(init, clauses) && forall k | 0 <= k < |clauses| :: clauses[k] <= pool
    ensures found ==> ResolvesToEmpty(clauses)
    ensures !found ==> RoundState(init, clauses, newClauses, pool, |clauses|, 0)
  {
    newClauses := [];
    assert clauses + newClauses == clauses;
    var n := |clauses|;
    var i := 0;
    while i < n
      invariant 0 <= i <= n
      invariant RoundState(init, clauses, newClauses, pool, i, 0)
    {
      var j := i + 1;
      while j < n
        invariant i < j <= n
        invariant RoundState(init, clauses, newClauses, pool, i, j)
      {
        var res := Resolve(clauses[i], clauses[j]);
        if res == {} {
          assert ResolvesToEmpty(clauses);
          return true, newClauses;
        }
        if !IsTautology(res) && res !in clauses + newClauses {
          AddResolvent(init, clauses, newClauses, pool, i, j);
          newClauses := newClauses + [res];
        } else {
          KeepRound(init, clauses, newClauses, pool, i, j);
        }
        j := j + 1;
      }
      NextRow(init, clauses, newClauses, pool, i);
      i := i + 1;
    }
    return false, newClauses;
  }

  /** A round that adds nothing leaves the clauses saturated, so nothing refutes the start. */
  lemma RoundSaturated(init: seq<Clause>, clauses: seq<Clause>, pool: set<Literal>)
    requires RoundState(init, clauses, [], pool, |clauses|, 0)
    ensures !Refutable(init)
  {
    assert clauses + [] == clauses;
    SaturatedNotRefutable(init, clauses);
  }

  /** A round that adds clauses extends the derivation within the pool and takes a new clause out of the unseen subsets. */
  lemma RoundGrows(init: seq<Clause>, clauses: seq<Clause>, newClauses: seq<Clause>, pool: set<Literal>)
    requires Derivation(init, clauses) && RoundState(init, clauses, newClauses, pool, |clauses|, 0) && newClauses != []
    requires forall k | 0 <= k < |clauses| :: clauses[k] <= pool
    ensures Derivation(init, clauses + newClauses)
    ensures forall k | 0 <= k < |clauses + newClauses| :: (clauses + newClauses)[k] <= pool
    ensures Subsets(pool) - ToSet(clauses + newClauses) < Subsets(pool) - ToSet(clauses)
  {
    var n := |clauses|;
    var all := clauses + newClauses;
    var added := newClauses[0];
    assert |init| <= n;
    assert added == all[n];
    assert DerivedAt(all, n);
    assert all[..n] == clauses;
    assert added in Subsets(pool) - ToSet(clauses);
    assert added !in Subsets(pool) - ToSet(all);
    forall k | 0 <= k < |all|
      ensures all[k] <= pool
    {
      if k >= n {
        assert all[k] == newClauses[k - n];
      }
    }
  }

  /**
   * `prove`: refutation by saturation. Each round resolves every pair of the
   * clauses held at its start; an empty resolvent answers true at once,
   * tautologies and clauses already held are dropped, and a round that adds
   * nothing answers false. The answer is true exactly when some derivation
   * from the starting clauses reaches a pair resolving to the empty clause.
   * Rounds only add clauses over the starting literals, distinct from all
   * held ones, so the loop ends. The database itself is never changed.
   */
  method Prove(kb: KnowledgeBase, goal: Expr) returns (r: Result<bool, RenderError>)
    ensures r.Failure? <==> StartClauses(kb, goal).Failure?
    ensures r.Success? ==> (r.value <==> Refutable(StartClauses(kb, goal).value))
  {
    var start := StartClauses(kb, goal);
    if start.Failure? {
      return Failure(start.error);
    }
    var init := start.value;
    var clauses := init;
    ghost var pool := Pool(init);
    while true
      invariant Derivation(init, clauses)
      invariant forall k | 0 <= k < |clauses| :: clauses[k] <= pool
      decreases Subsets(pool) - ToSet(clauses)
    {
      var found, newClauses := Round(init, clauses, pool);
      if found {
        return Success(true);
      }
      if newClauses == [] {
        RoundSaturated(init, clauses, pool);
        return Success(false);
      }
      RoundGrows(init, clauses, newClauses, pool);
      clauses := clauses + newClauses;
    }
  }
}
