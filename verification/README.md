# A verified model of a propositional theorem prover

The system is a small theorem prover for propositional logic, written in JavaScript. It has five parts, and each is modelled here as pure Dafny functions over immutable datatypes:

- **Formulas** (`types.dfy`, module `Types`). An `Expression` is an action plus an argument array. Its constructor checks the action and the arguments. `toString` renders a formula as infix text, `translate` maps a connective to its symbol, and `clone` copies a formula.
  - In the model a formula is `Atom(name)`, `Neg(arg)` or `Bin(op, left, right)`.
  - The constructor accepts any symbol as an action, so `op` also has an `Other` case. Rendering a formula that contains `Other` fails, as in the code.
  - `Construct` models the constructor's checks on raw input, in the constructor's order.
- **Truth tables** (`semantics.dfy`, module `Semantics`). This part covers `eq`, its inner `collectElements` and `evaluate`, and the bitmask enumeration `enumerateAll`.
  - `evaluate` is modelled with JavaScript's three values (true, false, `undefined`).
  - It is linked to a two-valued reference semantics `Eval`, which the other modules use to state what their rewrites preserve.
- **Normal form** (`normalizer.dfy`, module `Normalizer`). `toCNF` runs five rewrite stages in a fixed order:
  1. remove ↔;
  2. remove →;
  3. push ¬ inward by De Morgan's laws;
  4. strip ¬¬;
  5. distribute ∨ over ∧.

  Each stage is proved to keep the atoms and the truth value under every assignment. Each stage's incomplete matching is modelled as written. The result is therefore not always in conjunctive normal form.
- **Knowledge base and resolution** (`engine.dfy`, module `Engine`). This part covers `facts`, `clear`, `collectConjunctions`, `extractLiterals`, `negate`, `resolve` and the saturation loop `prove`.
  - A literal is a string, with `¬` marking a negated literal. A clause is a set of literals.
  - The database is an explicit value. `Facts` returns the new database and `Prove` never changes it.
  - `Prove` answers true exactly when some derivation from the starting clauses holds two clauses that resolve to the empty set. A derivation adds, one at a time, new, non-empty, non-tautological resolvents of earlier clauses.
  - The loop terminates because every added clause is a new subset of the starting literals.
- **Parser** (`tokenizer.dfy`, `parser.dfy` and the modules `ParserFacts`, `ParserExamples`, `ParserCases` and `RoundTrip`). `parse` has two stages:
  - a character tokenizer (`Tokenize`);
  - a shunting-yard parser (`Run`, then `Finish`) with two error kinds, a mismatched parenthesis and an unrecognized operator.

  The repository's tests are stated as lemmas over the model: the `Expression` tests in `ExpressionCases`, the `parse()` tests in `ParserCases`, the `facts()` tests in `Scenarios`, and the nine `prove()` tests in `Scenarios` (three) and `ProveCases` (six). Each `prove()` case is carried from the stored formulas through `Facts`, the start clauses and the derivation to the answer of `Prove`.

The parser has three behaviours worth knowing. Each is proved here as the code does it:

- **Equal precedence groups to the right.** An incoming operator pops only operators of strictly higher precedence. So `A&B|C` is `A ∧ (B ∨ C)` and `A->B->C` is `A → (B → C)`; see `ParserCases.ConjunctionDisjunctionCase`, `ParserCases.ImplicationChainCase` and `ParserExamples.ParseChain`. This follows from the strict comparison at parser.js:74.
- **Whitespace never ends a token.** Spaces, newlines and tabs are skipped without ending the current token. `parse(s)` is therefore `parse` of `s` with that whitespace removed; see `Tokenizer.WhitespaceIgnored`. A consequence is that `A ∧ ¬B` is read with the single operator `∧¬`, which is unknown.
- **`toString` output does not always parse back.** A negation to the right of a binary connective is read with the single unknown operator run described above. `RoundTrip.NegatedRightSide` shows that `(A ∧ ¬B)` is rejected. `RoundTrip.RenderParse` proves the round trip for every formula without that shape whose atom names the tokenizer reads as single names (`RoundTrip.Readable`).

`wrappers.dfy` holds the `Option` and `Result` types that model thrown errors and `undefined`.

## Model

| member | source | states |
|---|---|---|
| Types.Construct | types.js:18-34 | succeeds exactly for a symbol action, an argument array of the action's arity (one for negation, two otherwise) and only strings or nodes as arguments; then the node has that action and those arguments. Otherwise it fails with a TypeError for a non-symbol action, a missing-array error, an arity error, or a TypeError for a bad argument, checked in that order |
| Types.ConstructDeconstruct | types.js:18-34 | rebuilding a node from its own action and arguments succeeds and gives the node back |
| Types.Translate | types.js:58-71 | succeeds exactly for the four binary connectives, with a one-character symbol, and fails with "no matching symbol" for an action outside the dictionary. Negation is in the dictionary too, but `toString` writes its `¬` directly (types.js:37-38), so negation never reaches `translate` and `Op` has no case for it |
| Types.Render | types.js:36-41 | `toString` succeeds exactly when every node's action is one of the five connectives |
| Types.Clone | types.js:43-52 | the copy equals the original, node for node |
| ExpressionCases.FromLiterals | test/tests.js:8-13 | `new Expression(AND, ["A", "B"])` is a conjunction node with two arguments |
| ExpressionCases.NegationFromLiteral | test/tests.js:14-19 | `new Expression(NOT, ["A"])` is a negation node with one argument |
| ExpressionCases.FromExpressions | test/tests.js:20-27 | a conjunction of the nodes ¬A and ¬B is built |
| ExpressionCases.WrongArgumentCounts | test/tests.js:28-38 | three or one arguments for OR and two for NOT are arity errors; no argument array is the missing-array error |
| ExpressionCases.WrongArgumentTypes | test/tests.js:39-45 | numbers as arguments, and a number as the action, are TypeErrors |
| ExpressionCases.RenderNegation | test/tests.js:48-52 | ¬A renders as `¬A` |
| ExpressionCases.RenderImplication | test/tests.js:53-57 | A → B renders as `(A → B)` |
| ExpressionCases.RenderCompound | test/tests.js:58-64 | ¬A → ¬B renders as `(¬A → ¬B)` |
| ExpressionCases.RenderUnknownAction | test/tests.js:65-69 | a node with a fresh symbol as its action fails with "no matching symbol" |
| ExpressionCases.CloneCases | test/tests.js:72-92 | the copies of A → B and ¬A → ¬B keep the action and the arguments |
| Semantics.EvalDependsOnAtoms | helper.js:18-30 | a formula's value depends only on the values of its own atoms |
| Semantics.Evaluate | helper.js:18-30 | on a formula of the five connectives whose atoms are all assigned, `evaluate` gives the boolean of the two-valued meaning, with → as ¬a ∨ b and ↔ as (¬a ∨ b) ∧ (¬b ∨ a) |
| Semantics.AssignPrefix | helper.js:51-56 | after the first k variables are set, the object's keys are exactly those variables |
| Semantics.AssignPrefixValues | helper.js:53-55 | a variable not set again later holds bit j of the combination number i |
| Semantics.Assignment | helper.js:51-58 | each yielded object assigns exactly the given variables |
| Semantics.AssignmentBits | helper.js:53-55 | for distinct variables, variable j of combination i is true iff bit j of i is set |
| Semantics.ShiftOneAgrees | helper.js:50 | the 32-bit `1 << n` equals 2 to the n exactly when n ≤ 30; it is negative at n = 31 and repeats with period 32 beyond |
| Semantics.EnumerateAll | helper.js:47-60 | 2^n objects are yielded for n variables, each over exactly the variables |
| Semantics.IndexOfBits | helper.js:50-55 | an assignment whose values are the bits of i (for i below 2^n) is combination number i |
| Semantics.BitsOfIndex | helper.js:50-55 | every assignment of the variables has a combination number below 2^n whose bits are its values |
| Semantics.IndexOfAssignment | helper.js:50-55 | combination i of distinct variables has combination number i |
| Semantics.AssignmentOfIndex | helper.js:50-55 | every assignment of exactly the distinct variables is produced by the combination numbered by its bits |
| Semantics.EnumeratedAssignmentsDistinct | helper.js:47-60 | for distinct variables, the yielded assignments are pairwise different |
| Semantics.EnumerationCovers | helper.js:47-60 | for distinct variables, every assignment of exactly those variables is yielded |
| Semantics.CollectElements | helper.js:10-13 | collecting extends the set in insertion order, adds exactly the formula's atom names, and adds no duplicate |
| Semantics.VariablesOf | helper.js:9-15 | the variable list holds exactly the atoms of A and B, each once |
| Semantics.EqIffAgreeOnAtoms | helper.js:7-42 | `eq(A, B)` is true iff A and B evaluate alike under every assignment to their combined atoms |
| Semantics.EvaluateRestricted | helper.js:18-30 | evaluating under a total valuation restricted to any superset of the atoms gives the two-valued meaning |
| Semantics.EqIffEquivalent | helper.js:7-42 | for formulas of the five connectives, `eq` is logical equivalence under every valuation |
| Semantics.EqReflexiveSymmetric | helper.js:33-41 | `eq` is reflexive and symmetric |
| Normalizer.RemoveBijections | theorem.js:150-165 | no ↔ remains; the atoms, the known-connective status and the truth value under every valuation are kept; the formula is unchanged iff it had no ↔ |
| Normalizer.ReplaceImplications | theorem.js:167-181 | no → remains; the other connectives except ∨ are untouched; atoms and truth value are kept; unchanged iff there was no → |
| Normalizer.ApplyDeMorgan | theorem.js:183-207 | only ∧/∨ usage can change; atoms and truth value are kept; unchanged iff no negation sits directly over a conjunction or disjunction |
| Normalizer.EliminateDoubleNegations | theorem.js:209-224 | the formula does not grow; connective usage, atoms and truth value are kept; unchanged iff there is no ¬¬ |
| Normalizer.DistributeOr | theorem.js:226-254 | connective usage, atoms and truth value are kept; unchanged iff no disjunction has one of the two distributable shapes |
| Normalizer.ToCNF | theorem.js:138-148 | an atom is returned as is; no → or ↔ remains; atoms and truth value under every valuation are kept |
| Normalizer.ToCNFOfImplication | theorem.js:167-181 | A → B normalizes to ¬A ∨ B |
| Normalizer.ToCNFOfEquivalence | theorem.js:150-165 | A ↔ B normalizes to (¬A ∨ B) ∧ (¬B ∨ A), forward implication first |
| Normalizer.DoubleNegationExamples | theorem.js:212-222 | ¬¬A becomes A, but ¬¬¬¬A becomes ¬¬A, because the replacement is not examined again |
| Normalizer.DeMorganUnderDoubleNegation | theorem.js:186-205 | at ¬¬(A ∧ B) nothing is rewritten at the top; the inner negation is rewritten to ¬A ∨ ¬B |
| Normalizer.NoDistributionOverNegatedLeft | theorem.js:230-250 | ¬A ∨ (B ∧ C) is not distributed, because its left side is neither an atom nor a conjunction |
| Engine.CollectConjunctions | dist/main.js:141-145 | the conjuncts are at least one formula, none of them a conjunction, and together they mean the formula |
| Engine.CollectConjunctionsFills | dist/main.js:141-145 | a list is the conjunct list of a formula exactly when its pieces, put from left to right into the holes of the formula's tree of ∧ nodes, give the formula back: the conjuncts are the ∧-leaves, in left-to-right order |
| Engine.Facts | dist/main.js:128-135 | the old clauses stay in front, the new ones are not conjunctions, and the new database means the old one together with the asserted formulas |
| Engine.FactsOne | dist/main.js:128-135 | storing one formula appends the conjuncts of its normal form after the old clauses |
| Engine.FactsAppend | dist/main.js:128-135 | storing a list of formulas in one call is storing them one after the other, in argument order |
| Engine.Clear | dist/main.js:137-139 | the database is empty afterwards |
| Engine.ClearIdempotent | dist/main.js:137-139 | clearing twice is clearing once, from any database |
| Engine.NegateInvolution | dist/main.js:218-220 | negating twice gives the literal back iff it does not start with two negation marks |
| Engine.Resolve | dist/main.js:225-233 | the resolvent is a subset of the union of the two clauses |
| Engine.ResolveSymmetric | dist/main.js:225-233 | resolution does not depend on the order of the clauses |
| Engine.ResolveEmptyIff | dist/main.js:225-233 | two clauses resolve to the empty set iff every literal of each has its negation in the other |
| Engine.ExtractLiterals | dist/main.js:147-158 | succeeds on every formula of the five connectives and never gives an empty clause |
| Engine.ClauseMeaning | dist/main.js:147-158 | for a disjunction of literals, the formula is true iff one of its extracted literals holds |
| Engine.ExtractAll | dist/main.js:172 | the literal sets of the formulas, in order and one per formula, or a failure iff one formula fails |
| Engine.SaturatedNotRefutable | dist/main.js:208-209 | when a round adds nothing, no derivation from the same start reaches the empty clause, so answering false is right |
| Engine.AddResolvent | dist/main.js:196-204 | adding a new, non-empty, non-tautological resolvent keeps the loop invariant |
| Engine.KeepRound | dist/main.js:190-202 | skipping a tautology or a clause already held keeps the loop invariant |
| Engine.Prove | dist/main.js:164-213 | `prove` fails only when the start clauses cannot be built; otherwise it answers true iff the start clauses (database, then the conjuncts of the negated goal) admit a derivation with a pair resolving to the empty set |
| Engine.Round | dist/main.js:175-205 | one pass over all pairs either meets a pair resolving to the empty set, or returns resolvents that are each non-empty, non-tautological and new, after which every pair of the clauses held is settled |
| Scenarios.FactsOfImplication | test/tests.js:166-177 | asserting A → B stores ¬A ∨ B |
| Scenarios.FactsOfConjunction | test/tests.js:178-185 | asserting C ∧ D stores C and D |
| Scenarios.FactsOfEquivalence | test/tests.js:186-203 | asserting A ↔ B stores ¬A ∨ B and then ¬B ∨ A |
| Scenarios.FactsInOrder | test/tests.js:204-209 | asserting A and B stores them in that order |
| Scenarios.NegateExamples | dist/main.js:218-220 | negate adds and strips one mark on concrete literals |
| Scenarios.ProveModusPonens | test/tests.js:217 | from A → B and A, B is proved |
| Scenarios.ProveFromNothing | test/tests.js:222 | from an empty database, A is not proved |
| Scenarios.ProveFromTautology | test/tests.js:224 | from A ∨ ¬A, B is not proved |
| ProveCases.DerivationStep | dist/main.js:185-204 | a resolvent of two held clauses that is non-empty, not a tautology and not yet held, as the loop keeps it, extends a derivation |
| ProveCases.RefutedBy | dist/main.js:185-188 | a derivation holding two clauses that resolve to the empty set makes its start refutable, which is when the loop answers true |
| ProveCases.ProveFromItself | test/tests.js:216 | from A, A is proved |
| ProveCases.ProveFromDoubleNegation | test/tests.js:218 | from ¬¬A, A is proved: the stored formula normalizes to A |
| ProveCases.ProveFromMixed | test/tests.js:219 | from A ∨ (B ∧ C), the same formula is proved: it is stored as A ∨ B and A ∨ C, and its negation starts as ¬A and ¬B ∨ ¬C |
| ProveCases.ProveFromRule | test/tests.js:220 | from (A ∨ (B ∧ C)) → (D ∨ ¬E), A ∧ C and ¬D, ¬E is proved, through the resolvents D ∨ ¬E and ¬E |
| ProveCases.ProveFromChain | test/tests.js:221 | from A → B and B → C, A → B is proved |
| ProveCases.ProveUnrelated | test/tests.js:223 | from A → B, C is not proved: one resolvent is added and then the clause set is saturated |
| ProveCases.SimultaneousResolution | dist/main.js:225-233 | A ∨ B and ¬A ∨ ¬B resolve to the empty clause and so are refutable, although A true and B false satisfies both |
| Tokenizer.PushShape | parser.js:15-30 | one character keeps the tokens maximal runs and extends their text by the character unless it is whitespace |
| Tokenizer.TokenizeShape | parser.js:12-31 | the tokens are maximal runs of one type (each parenthesis alone), and their text is the input without whitespace |
| Tokenizer.TokenizeRun | parser.js:22-30 | a run appended after a token it cannot merge with becomes exactly one more token |
| Tokenizer.TokenizeFlatten | parser.js:12-31 | tokenizing the text of well-formed tokens gives the same tokens back |
| Tokenizer.WhitespaceIgnored | parser.js:15 | spaces, newlines and tabs do not change the tokens |
| Parser.Precedence | parser.js:38-44 | defined exactly on the ten known spellings; negation is 2, ∧ and ∨ are 1, → and ↔ are 0; any other spelling is an unrecognized operator |
| Parser.Out | parser.js:46-66 | an unknown spelling fails as unrecognized; a known one with too few formulas fails in the constructor; otherwise the top one or two formulas are replaced by the node built from them, the topmost as the right argument |
| ParserFacts.PopHigherPrefix | parser.js:70-77 | popping for an incoming operator only removes operators from the top of the stack |
| ParserFacts.CloseParenPrefix | parser.js:83-92 | a successful `)` only removes operators from the top of the stack, and removes at least one (the opening parenthesis) |
| ParserFacts.PopHigherKeeps | parser.js:70-77 | popping for an incoming operator keeps the opening parentheses, and every operator it removes was recognized |
| ParserFacts.PopHigherErrors | parser.js:70-77 | popping for an incoming operator never reports a parenthesis error, and reports an unknown operator only when one is present |
| ParserFacts.CloseParenKeeps | parser.js:83-92 | a successful `)` removes exactly one opening parenthesis, and every operator it removes was recognized |
| ParserFacts.CloseParenErrors | parser.js:83-92 | `)` reports a mismatch only when no parenthesis is open, and an unknown operator only when one is waiting |
| ParserFacts.FinishFacts | parser.js:95-102 | the final loop succeeds only when no parenthesis is left and every waiting operator is known; each error has its cause on the stack |
| ParserFacts.StepKeeps | parser.js:68-93 | one token changes the open-parenthesis count by its own depth, pushes every operator token, and every operator it removes was recognized |
| ParserFacts.StepErrors | parser.js:68-93 | one token fails as a mismatch only when it is `)` with nothing open, and as unknown only when an unknown operator is present |
| ParserFacts.RunKeeps | parser.js:68-93 | after a successful main loop no prefix of the input closed more parentheses than it opened, the count of open parentheses moved by the input's depth, and every operator seen is still waiting or was recognized |
| ParserFacts.RunMismatch | parser.js:68-93 | a mismatch in the main loop has a prefix that closes more than it opens |
| ParserFacts.ParenthesesChecked | parser.js:83-102 | a successful parse saw balanced parentheses, and a mismatched-parenthesis error saw unbalanced ones |
| ParserFacts.RunUnknown | parser.js:68-93 | an unrecognized-operator error in the main loop has an unknown operator among the input or the waiting operators |
| ParserFacts.KnownOperatorsOnSuccess | parser.js:38-44 | a successful parse saw only known operator spellings |
| ParserFacts.UnknownOperatorHasCause | parser.js:38-44 | an unrecognized-operator error saw an unknown operator spelling |
| ParserFacts.OperatorsChecked | parser.js:38-58 | a successful parse saw only known spellings, and an unrecognized-operator error saw an unknown one |
| ParserFacts.OutKnown | parser.js:46-66 | a node that `out` builds has only the four binary connectives and negation in it |
| ParserFacts.ParsedKnown | parser.js:46-66 | every formula `parse` returns can be rendered by `toString` |
| ParserExamples.NamesAround | parser.js:68-81 | a name, any operator and a name leave both atoms on the output and the operator waiting |
| ParserExamples.ParseBinary | parser.js:53-62 | each binary spelling between two names parses to its connective over the two atoms |
| ParserExamples.ParseNegation | parser.js:50-51 | each negation spelling before a name parses to the negated atom |
| ParserExamples.ParseChain | parser.js:74 | x o1 y o2 z groups to the right unless o1 binds strictly tighter than o2 |
| ParserExamples.ParseNegatedChain | parser.js:68-102 | a leading negation binds tighter than either of two following binary operators |
| ParserExamples.GroupTokens | parser.js:82-92 | a parenthesized binary group outputs one node and leaves the operator stack as it was |
| ParserExamples.ParseJoinedGroups | parser.js:82-92 | two parenthesized groups joined by a binary operator are its two arguments |
| ParserExamples.ChainGroup | parser.js:82-92 | a parenthesized chain is one node, grouped as outside parentheses |
| ParserExamples.ParseUnclosed | parser.js:98-99 | an opening parenthesis never closed is a mismatched parenthesis |
| ParserExamples.ParseOverclosed | parser.js:86-87 | a closing parenthesis with nothing open is a mismatched parenthesis |
| ParserExamples.ParseUnknownBetween | parser.js:53-58 | an unknown operator run between two names is unrecognized |
| ParserExamples.ParseUnknownAfterChain | parser.js:38-44 | an unknown operator run after a chain is unrecognized |
| ParserCases.ImplicationArrowCase | test/tests.js:97 | `A→B` parses to A → B |
| ParserCases.ImplicationAsciiCase | test/tests.js:98 | `A->B` parses to A → B |
| ParserCases.EquivalenceAsciiCase | test/tests.js:99 | `A<->B` parses to A ↔ B |
| ParserCases.EquivalenceArrowCase | test/tests.js:100 | `A↔B` parses to A ↔ B |
| ParserCases.ConjunctionAsciiCase | test/tests.js:101 | `A&B` parses to A ∧ B |
| ParserCases.ConjunctionSymbolCase | test/tests.js:102 | `A∧B` parses to A ∧ B |
| ParserCases.DisjunctionAsciiCase | test/tests.js:103 | `A|B` parses to A ∨ B |
| ParserCases.DisjunctionSymbolCase | test/tests.js:104 | `A∨B` parses to A ∨ B |
| ParserCases.NegationAsciiCase | test/tests.js:105 | `!A` parses to ¬A |
| ParserCases.NegationSymbolCase | test/tests.js:106 | `¬A` parses to ¬A |
| ParserCases.WhitespaceCase | test/tests.js:118-123 | whitespace around the tokens is ignored |
| ParserCases.PrecedenceCase | test/tests.js:136-147 | `!A->B|C` parses to ¬A → (B ∨ C) |
| ParserCases.ConjunctionDisjunctionCase | parser.js:74 | `A&B|C` groups to the right: A ∧ (B ∨ C) |
| ParserCases.DisjunctionConjunctionCase | parser.js:74 | `A|B&C` groups to the right: A ∨ (B ∧ C) |
| ParserCases.ImplicationChainCase | parser.js:74 | `A->B->C` groups to the right: A → (B → C) |
| ParserCases.TighterFirstCase | parser.js:74 | `A|B->C` parses to (A ∨ B) → C |
| ParserCases.CompoundCase | test/tests.js:124-135 | `(A&B)->(B|C)` parses to (A ∧ B) → (B ∨ C) |
| ParserCases.UnclosedCase | test/tests.js:149-150 | `(A & B` is a mismatched parenthesis |
| ParserCases.OverclosedCase | test/tests.js:152-153 | `(A|C & B))` is a mismatched parenthesis |
| ParserCases.UnknownAtEndCase | test/tests.js:156-157 | `A ->>> B` is an unrecognized operator |
| ParserCases.UnknownInLoopCase | test/tests.js:159-160 | `A&B|C ->>> D` is an unrecognized operator |
| RoundTrip.RenderText | types.js:36-41 | a readable formula renders, and its tokens are well-formed and spell its rendering without the spaces |
| RoundTrip.RenderTokens | parser.js:12-31 | the tokenizer splits the rendering of a readable formula into exactly its tokens |
| RoundTrip.RunToks | parser.js:68-93 | the main loop over a readable formula's tokens puts the formula on the output, with a leading negation still waiting on the stack |
| RoundTrip.RenderParse | parser.js:6-105 | parsing the `toString` text of a readable formula gives the formula back |
| RoundTrip.NegatedRightSide | parser.js:15-30 | the rendering `(x op ¬y)` has the connective and the negation mark in one operator run, and `parse` rejects it as unrecognized |

## Left out

- In-place mutation and aliasing in the normal-form stages (`expression.args = …`): each stage is the pure rewrite. Shared subtrees that the code can visit twice are not modelled. `toCNF` working on a clone and leaving its argument unchanged holds trivially for immutable values.
- The database as a module-level variable: it is an explicit `KnowledgeBase` value that `Facts` returns and `Prove` only reads.
- Soundness and completeness of `prove`: the code is not sound. Simultaneous multi-literal resolution turns P ∨ Q and ¬P ∨ ¬Q into the empty clause, although both hold when P is true and Q false; `ProveCases.SimultaneousResolution` proves this for A and B. `Engine.Prove` states instead exactly when the loop answers true.
- A "result is in conjunctive normal form" theorem: the De Morgan and distribution stages match only some shapes, as the code does.
- Exact error-message text: the errors are told apart by kind only.
- ExpressionCases.CloneCases: states that the copy equals the original. The tests' checks that the copy is a different object (test/tests.js:80-81 and 90-91) have no counterpart for immutable values.
- JavaScript runtime details:
  - the 32-bit `1 << n` in the enumeration: `Semantics.ShiftOne` models it and `Semantics.ShiftOneAgrees` proves that it is the exact power of two only up to n = 30. `Semantics.EnumerateAll` and `Semantics.Eq` use the exact power `Semantics.Pow2`, which matches the code for at most 30 variables. At 31 variables the shift is -2147483648, the loop runs no round, and `eq` answers true for any two formulas. From 32 on it wraps round to `1 << (n % 32)`. The repository's comment promises at most 15 variables;
  - the assignment as a plain JavaScript object: the model uses a `map<string, bool>`. On an object, assigning the key `__proto__` creates no entry, and reading it yields `Object.prototype`. So for a formula with an atom named `__proto__` the code's `evaluate` differs from `Semantics.Evaluate`. For example, the code's `eq(¬¬__proto__, __proto__)` is false, since `true !== Object.prototype`, while `Semantics.Eq` gives true;
  - implicit globals;
  - the order in which `Set` iterates literals (clauses are sets).
- The older duplicate engine, parser and helper code in theorem.js, and the bundled parser and types copies in dist/main.js: each function is modelled once, from its current copy.
- Module plumbing (`require`, `module.exports`, the bundle wrapper and global injection).
- Several functions that model the code carry no contract of their own. Lemmas about them state their behaviour instead:
  - `Parser.Parse` and `Parser.ParseTokens` (`parse`, parser.js:6-105): `RoundTrip.RenderParse`, `ParserFacts.ParenthesesChecked`, `ParserFacts.OperatorsChecked`, `ParserFacts.ParsedKnown` and the `ParserCases` lemmas;
  - `Parser.Finish` (the final loop, parser.js:95-105): `ParserFacts.FinishFacts`;
  - `Parser.Pop` (the `output.pop()` calls in `out`, parser.js:50-61): the contract of `Parser.Out`;
  - `Parser.PopHigher`, `Parser.CloseParen`, `Parser.Step` and `Parser.Run`: the `ParserFacts` lemmas;
  - `Tokenizer.Tokenize` and `Tokenizer.Push` (parser.js:12-31): `Tokenizer.PushShape`, `Tokenizer.TokenizeShape`, `Tokenizer.TokenizeRun`, `Tokenizer.TokenizeFlatten` and `Tokenizer.WhitespaceIgnored`;
  - `Semantics.Eq` (`eq`, helper.js:7-42): `Semantics.EqIffAgreeOnAtoms`, `Semantics.EqIffEquivalent` and `Semantics.EqReflexiveSymmetric`;
  - `Engine.Negate` (`negate`, dist/main.js:218-220): `Engine.NegateInvolution` and `Scenarios.NegateExamples`;
  - `Engine.IsTautology` (the tautology test, dist/main.js:190-193): `Engine.KeepRound`, `Engine.AddResolvent` and `Engine.Round`;
  - `Engine.StartFormulas` and `Engine.StartClauses` (the clause set `prove` starts from, dist/main.js:167-172): `Engine.Prove` and `Engine.ExtractAll`.
- RoundTrip.RenderParse: proved only for formulas with known connectives, names that the tokenizer reads as single names, no ¬¬, and no negation as a right operand. The excluded shapes do not read back as themselves; `RoundTrip.NegatedRightSide` proves this for the last one.
- Semantics.EqIffEquivalent: holds for the code only for at most 30 distinct atoms, none of them named `__proto__`, for the two reasons above.
- Engine.Resolve: its contract states only the subset bound; symmetry and the empty-resolvent condition are separate lemmas.
