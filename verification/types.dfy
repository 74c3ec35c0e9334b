/**
 * The formula tree of the prover: the `Expression` class, its constructor's
 * argument checks, its canonical infix rendering and its deep copy.
 */
module Types {
  import opened Wrappers

  /**
   * The action of a two-argument node. The constructor accepts any symbol as
   * an action, so besides the four binary connectives there are other symbols,
   * told apart by an identifier.
   */
  datatype Op = And | Or | Impl | Eqv | Other(id: nat)

  /**
   * A formula. An atom is a string argument; a negation holds exactly one
   * argument and every other action exactly two, as the constructor enforces.
   */
  datatype Expr = Atom(name: string) | Neg(arg: Expr) | Bin(op: Op, left: Expr, right: Expr)

  /** The symbol passed to the constructor as the action. */
  datatype Action = NotAction | BinAction(op: Op)

  /** The first constructor argument: a symbol, or some value that is not a symbol. */
  datatype RawAction = Symbol(action: Action) | NonSymbol

  /** One element of the argument array: a string or an Expression, or any other value. */
  datatype Arg = Formula(e: Expr) | Invalid

  /** The three ways construction fails: a TypeError, a missing argument array, a wrong count. */
  datatype ConstructError = TypeError | MissingArguments | ArityError

  /** The single failure of rendering: an action with no matching symbol. */
  datatype RenderError = NoMatchingSymbol

  /** The number of arguments an action takes. */
  function Arity(a: Action): nat {
    if a == NotAction then 1 else 2
  }

  /** The action of a node. */
  function ActionOf(e: Expr): Action
    requires !e.Atom?
  {
    if e.Neg? then NotAction else BinAction(e.op)
  }

  /** The argument array of a node. */
  function ArgsOf(e: Expr): seq<Arg>
    requires !e.Atom?
  {
    if e.Neg? then [Formula(e.arg)] else [Formula(e.left), Formula(e.right)]
  }

  predicate AllFormulas(args: seq<Arg>) {
    forall i | 0 <= i < |args| :: args[i].Formula?
  }

  /**
   * `new Expression(action, args)`: the checks run in the constructor's order,
   * and the first one that fails decides the error.
   */
  function Construct(action: RawAction, args: Option<seq<Arg>>): (r: Result<Expr, ConstructError>)
    ensures r.Success? <==>
      action.Symbol? && args.Some? && |args.value| == Arity(action.action) && AllFormulas(args.value)
    ensures r.Success? ==>
      !r.value.Atom? && ActionOf(r.value) == action.action && ArgsOf(r.value) == args.value
    ensures action.NonSymbol? ==> r == Failure(TypeError)
    ensures action.Symbol? && args.None? ==> r == Failure(MissingArguments)
    ensures action.Symbol? && args.Some? && |args.value| != Arity(action.action) ==> r == Failure(ArityError)
    ensures action.Symbol? && args.Some? && |args.value| == Arity(action.action) && !AllFormulas(args.value) ==>
      r == Failure(TypeError)
  {
    if action.NonSymbol? then Failure(TypeError)
    else if args.None? then Failure(MissingArguments)
    else if action.action == NotAction && |args.value| != 1 then Failure(ArityError)
    else if action.action != NotAction && |args.value| != 2 then Failure(ArityError)
    else if exists i | 0 <= i < |args.value| :: args.value[i].Invalid? then Failure(TypeError)
    else match action.action
      case NotAction => Success(Neg(args.value[0].e))
      case BinAction(op) => Success(Bin(op, args.value[0].e, args.value[1].e))
  }

  /** Taking a node apart into its action and arguments and building it again gives it back. */
  lemma ConstructDeconstruct(e: Expr)
    requires !e.Atom?
    ensures Construct(Symbol(ActionOf(e)), Some(ArgsOf(e))) == Success(e)
  {
  }

  /** True when no node of the formula carries an action outside the five connectives. */
  predicate Known(e: Expr) {
    match e
    case Atom(_) => true
    case Neg(a) => Known(a)
    case Bin(op, l, r) => !op.Other? && Known(l) && Known(r)
  }

  /** Every formula of the sequence uses only the five connectives. */
  predicate AllKnown(fs: seq<Expr>) {
    forall i | 0 <= i < |fs| :: Known(fs[i])
  }

  /** The atom names occurring in a formula. */
  function Atoms(e: Expr): set<string> {
    match e
    case Atom(x) => {x}
    case Neg(a) => Atoms(a)
    case Bin(_, l, r) => Atoms(l) + Atoms(r)
  }

  /** The number of nodes and atoms of a formula, used as a termination measure. */
  function Size(e: Expr): nat {
    match e
    case Atom(_) => 1
    case Neg(a) => 1 + Size(a)
    case Bin(_, l, r) => 1 + Size(l) + Size(r)
  }

  /** The display symbol of a binary connective. */
  function SymbolOf(op: Op): string
    requires !op.Other?
  {
    match op
    case And => "∧"
    case Or => "∨"
    case Impl => "→"
    case Eqv => "↔"
  }

  /** `translate`: the symbol of an action, failing for a symbol outside the dictionary. */
  function Translate(op: Op): (r: Result<string, RenderError>)
    ensures r.Success? <==> !op.Other?
    ensures r.Success? ==> |r.value| == 1
  {
    if op.Other? then Failure(NoMatchingSymbol) else Success(SymbolOf(op))
  }

  /**
   * `toString`: an atom renders as itself, a negation as `¬` followed by its
   * argument, any other node as `(left op right)` with single spaces.
   */
  function Render(e: Expr): (r: Result<string, RenderError>)
    ensures r.Success? <==> Known(e)
  {
    match e
    case Atom(x) => Success(x)
    case Neg(a) =>
      var s :- Render(a);
      Success("¬" + s)
    case Bin(op, l, r) =>
      var ls :- Render(l);
      var sym :- Translate(op);
      var rs :- Render(r);
      Success("(" + ls + " " + sym + " " + rs + ")")
  }

  /** `clone`: a deep copy, rebuilt node by node, that equals the original. */
  function Clone(e: Expr): (r: Expr)
    ensures r == e
    ensures Size(r) == Size(e)
  {
    match e
    case Atom(_) => e
    case Neg(a) => Neg(Clone(a))
    case Bin(op, l, r) => Bin(op, Clone(l), Clone(r))
  }
}
