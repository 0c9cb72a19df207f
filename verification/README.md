# forthpiler back end, modelled in Dafny

forthpiler compiles a Forth dialect to the text assembly of EWVM, a small
stack machine. This project models the back half of that compiler:

- **The syntax tree** (`syntax.dfy`). It covers the closed family of
  expression nodes and the constructors that lower-case identifier names.
  It also covers Python's field-wise `__eq__`, which ignores the node's
  kind and can fail with `AttributeError`; this is modelled as a
  three-valued `Comparison`.
- **The EWVM code generator** (`ewvm_*.dfy`).
  - `ewvm_lowering.dfy` holds the pure tables: operators, comparisons,
    the fixed pieces of `DO…LOOP` and `DO…+LOOP`, and the rewrite of the
    loop index `i`.
  - `ewvm_spec.dfy` states what each visitor returns and how it leaves
    the generator's fields. These are functions from the session before
    the call to the session after it.
  - `ewvm_translator.dfy` is the generator as a class whose methods
    update those fields in place. Each method is proved equal to its
    spec function.
  - `ewvm_session.dfy`, `ewvm_labels.dfy`, `ewvm_jumps.dfy` and
    `ewvm_properties.dfy` prove what the generator guarantees:
    - counters only grow;
    - `exit` and `recurse` are bound during a word expansion and put back
      after it;
    - no structured label is defined twice, and apart from word labels
      distinct labels render to distinct text
      (`EwvmLowering.NumberedLabelTextInjective`); the text of two word
      labels can coincide (see "Left out");
    - each `i` loads the index of its innermost enclosing loop;
    - every branch of a translation from a new generator targets a label
      that the same output defines;
    - results that did not run out of fuel (see below) stay the same
      with more fuel.
- **The name-checking pass** (`semantic_*.dfy`). It keeps declared
  variables and words and the loop depth, and fails on the first
  violation. `pass_agreement.dfy` shows two programs that this pass
  accepts and the generator rejects.
- **The earlier snapshot** under `src/`.
  - `early_ast.dfy` covers nodes that print their own instruction, and a
    program printed one instruction per line.
  - `early_translator.dfy` covers a generator that expands words without
    labels.

Emitted lines are kept structured (`Op`, `Define`, `Jz`, `Jump`), and
`EwvmLowering.Render` gives their exact text.

Python's unbounded recursion during word expansion is bounded by a
`fuel` argument. Running out of it yields `RecursionLimit`, which stands
for `RecursionError`.

Points about the code that a reader might not expect:
- `pushs` text is emitted unquoted.
- The generator has no `j` primitive, so `j` never compiles.
- Loop ids come from a counter that is never decremented, so each loop
  has its own slot.
- Word definitions do not change the analyzer's depth.
- A bare literal naming a variable is accepted by the analyzer.
- A second definition of a word is rejected only by the generator.

## Model

| member | source | states |
|---|---|---|
| Common.Lower | forthpiler/ewvm_translator.py:145 | the folded name has no upper-case letter and equals the input up to case |
| Common.LowerIdempotent | forthpiler/syntax.py:198 | folding an already folded literal again (as the generator does) changes nothing |
| Common.ParseIntToString | forthpiler/ewvm_translator.py:25-26 | the decimal text of every integer reads back as that integer |
| Syntax.OperatorType.Value | forthpiler/syntax.py:123-130 | each operator's enum value lies in 1..7 |
| Syntax.ComparisonOperatorType.Value | forthpiler/syntax.py:157-168 | each comparison's enum value lies in 1..11 |
| Syntax.OperatorTypesCompareByValue | forthpiler/syntax.py:132-133 | two operator members are equal exactly when their values are |
| Syntax.ComparisonTypesCompareByValue | forthpiler/syntax.py:170-171 | two comparison members are equal exactly when their values are |
| Syntax.NewLiteral | forthpiler/syntax.py:196-198 | a literal stores its content lower-cased and otherwise unchanged |
| Syntax.NewWord | forthpiler/syntax.py:214-217 | a word stores its name lower-cased and its body as given |
| Syntax.NewVariableDeclaration | forthpiler/syntax.py:328-330 | the declared name is stored lower-cased |
| Syntax.NewConstantDeclaration | forthpiler/syntax.py:346-348 | the declared name is stored lower-cased |
| Syntax.NewStoreVariable | forthpiler/syntax.py:364-366 | the stored-to name is stored lower-cased |
| Syntax.NewFetchVariable | forthpiler/syntax.py:382-384 | the fetched name is stored lower-cased |
| Syntax.NewIfStatement | forthpiler/syntax.py:305-312 | the branches are kept, and `with_else` holds exactly when a false branch was given |
| Syntax.PrintStringKeepsCase | forthpiler/syntax.py:400-402 | a print string keeps its text verbatim; a literal of the same text agrees exactly when the text has no upper-case letter |
| Syntax.ExpressionEqReflexive | forthpiler/syntax.py:115-116 | every node compares equal to itself, so list comparison's identity shortcut changes no answer |
| Syntax.AstEqReflexive | forthpiler/syntax.py:443-444 | every tree compares equal to itself |
| Syntax.AstEqElementwise | forthpiler/syntax.py:443-444 | two trees are equal exactly when the lengths agree and each pair of expressions is equal |
| Syntax.ItemsEqElementwise | forthpiler/syntax.py:443-444 | element-by-element list comparison succeeds exactly when every pair compares equal |
| Syntax.WordEqualityComparesNameAndBody | forthpiler/syntax.py:224-225 | two words are equal exactly when the names and the bodies are |
| Syntax.IfEqualityComparesBothBranches | forthpiler/syntax.py:319-320 | two conditionals are equal exactly when both branches are |
| Syntax.LoopKindsCompareEqual | forthpiler/syntax.py:242-297 | the four loop kinds over one body compare equal although they are different nodes |
| Syntax.SharedFieldsCompareAcrossKinds | forthpiler/syntax.py:205-225 | a literal equals a print string of the same text; a declaration equals a word of its name, but not the other way round (`AttributeError`) |
| EwvmLowering.FunctionLabelsCanCollide | forthpiler/ewvm_translator.py:151 | word `a1` at counter 2 and word `a` at counter 12 get the same label text |
| EwvmLowering.NumberedLabelTextInjective | forthpiler/ewvm_translator.py:117-142 | two different labels other than word labels (`else`, `endif`, `startwhile`, `endwhile`, `ifreverseloop`, `elsereverseloop`) never render to the same text |
| EwvmLowering.VisitNumber | forthpiler/ewvm_translator.py:25-26 | a number gives one `pushi ` line whose decimal reads back as the number |
| EwvmLowering.VisitOperator | forthpiler/ewvm_translator.py:28-43 | fails, with `NotImplementedError`, exactly for `**` and `/MOD`; otherwise one opcode |
| EwvmLowering.OperatorLoweringInvertible | forthpiler/ewvm_translator.py:28-43 | the opcode determines the operator (`add sub mul div mod`) |
| EwvmLowering.VisitComparisonOperator | forthpiler/ewvm_translator.py:45-70 | every comparison lowers to one or two plain opcodes (the entries are stated by `ComparisonTableStructure`) |
| EwvmLowering.ComparisonTableStructure | forthpiler/ewvm_translator.py:45-70 | `=` `<` `<=` `>` `>=` are `equal` `inf` `infeq` `sup` `supeq`; `<>` is `=` then `not`; `0=` is `not`; every other zero comparison pushes 0, then runs its two-operand form |
| EwvmLowering.ComparisonLoweringInjective | forthpiler/ewvm_translator.py:45-70 | distinct comparisons lower to distinct code |
| EwvmLowering.LoopPiecesOwnedByLoop | forthpiler/ewvm_translator.py:179-272 | every `pushst`, label and branch in the six loop pieces of loop n names n |
| EwvmLowering.LoopPiecesShape | forthpiler/ewvm_translator.py:205-272 | the conditions open with `startwhile{n}:` and leave with `jz endwhile{n}`; the ends jump back to `startwhile{n}`, define `endwhile{n}:` and pop the slot |
| EwvmLowering.OnlyPlusLoopBranchesOnDirection | forthpiler/ewvm_translator.py:205-225 | only the +LOOP condition defines `ifreverseloop{n}` |
| EwvmLowering.RewriteIndex | forthpiler/ewvm_translator.py:238-245 | exactly the `i` elements become `pushst n` + `load 1`; every other element stays in place |
| EwvmLowering.RewriteLeavesNoMarker | forthpiler/ewvm_translator.py:238-245 | no `i` element survives the rewrite |
| EwvmLowering.MarkerFreeRewriteIsIdentity | forthpiler/ewvm_translator.py:238-245 | a body holding no `i` element, such as an inner loop's output, is left unchanged by the rewrite |
| EwvmLowering.LoopLinesHaveNoMarker | forthpiler/ewvm_translator.py:79-109 | a loop's whole output, fixed pieces included, holds no `i` element |
| EwvmLowering.LoopIndexLoadsComeFromBody | forthpiler/ewvm_translator.py:79-109 | an index load occurs in a loop's output exactly when it occurs in the rewritten body; the fixed pieces hold none |
| EwvmLowering.IndexLoadInjective | forthpiler/ewvm_translator.py:243 | the index loads of different loops are different lines |
| EwvmTranslator.EwvmTranslator.constructor | forthpiler/ewvm_translator.py:7-23 | the nine primitives, no user words, all counters 0 |
| EwvmTranslator.EwvmTranslator.Evaluate | forthpiler/syntax.py:119-432 | each node kind reaches its own visitor; kinds without one raise |
| EwvmTranslator.EwvmTranslator.Translate | forthpiler/ewvm_translator.py:176-177 | the loop's lines and fields after it equal `EvalAst`: the expressions' lines in order, stopping at the first exception |
| EwvmTranslator.EwvmTranslator.VisitFunction | forthpiler/ewvm_translator.py:72-77 | result and fields equal `EvalWord`: a duplicate raises, else the body is recorded and `[]` returned |
| EwvmTranslator.EwvmTranslator.VisitDoLoopStatement | forthpiler/ewvm_translator.py:79-92 | result and fields equal `EvalDoLoop`: take id n, bump the counter, then init, condition, rewritten body, end |
| EwvmTranslator.EwvmTranslator.VisitDoPlusLoopStatement | forthpiler/ewvm_translator.py:94-109 | as above, with the +LOOP pieces |
| EwvmTranslator.EwvmTranslator.VisitIfStatement | forthpiler/ewvm_translator.py:111-142 | result and fields equal `EvalIf`: the id is taken and bumped before the branches; `jz`/`jump`/label layout with and without else |
| EwvmTranslator.EwvmTranslator.VisitLiteral | forthpiler/ewvm_translator.py:144-168 | result and fields equal `EvalLiteral`: user word expanded between its labels with `exit`/`recurse` rebound and restored, else primitive, else `TranslationError` |
| EwvmTranslator.EwvmTranslator.GenerateLoopBody | forthpiler/ewvm_translator.py:238-245 | the in-place loop computes `RewriteIndex` |
| EwvmSession.RestoreUndoesBind | forthpiler/ewvm_translator.py:148-162 | restoring after an expansion gives back every `get` of the table from before it |
| EwvmSession.ExpressionEvolves | forthpiler/ewvm_translator.py:72-168 | any visitor: counters never decrease, recorded words are kept, primitives other than `exit`/`recurse` are untouched, and on success every lookup is as before |
| EwvmSession.SeqEvolves | forthpiler/ewvm_translator.py:176-177 | the same for a sequence of expressions |
| EwvmSession.LoopBodyEvolves | forthpiler/ewvm_translator.py:79-109 | the same for a loop body lowered after the id is taken |
| EwvmSession.IfEvolves | forthpiler/ewvm_translator.py:111-142 | the same for both forms of `if` |
| EwvmSession.LiteralEvolves | forthpiler/ewvm_translator.py:144-168 | the same for a literal, including a word expansion |
| EwvmSession.AstEvolves | forthpiler/ewvm_translator.py:176-177 | the same for a whole tree |
| EwvmLabels.ExpressionLabels | forthpiler/ewvm_translator.py:79-168 | on success, no label is defined twice, and each defined label's id was handed out during the call |
| EwvmLabels.SeqLabels | forthpiler/ewvm_translator.py:176-177 | the same for a sequence: later siblings take later ids |
| EwvmLabels.LoopLabels | forthpiler/ewvm_translator.py:79-92 | the same for `DO…LOOP` |
| EwvmLabels.PlusLoopLabels | forthpiler/ewvm_translator.py:94-109 | the same for `DO…+LOOP` |
| EwvmLabels.IfLabels | forthpiler/ewvm_translator.py:111-142 | the same for both forms of `if` |
| EwvmLabels.LiteralLabels | forthpiler/ewvm_translator.py:144-168 | the same for a word expansion |
| EwvmLabels.AstLabels | forthpiler/ewvm_translator.py:176-177 | the same for a whole tree |
| EwvmJumps.ExpressionJumps | forthpiler/ewvm_translator.py:79-168 | every branch emitted targets a label the same output defines, or an `exit`/`recurse` target of an enclosing expansion |
| EwvmJumps.SeqJumps | forthpiler/ewvm_translator.py:176-177 | the same for a sequence |
| EwvmJumps.LoopJumps | forthpiler/ewvm_translator.py:79-92 | the same for `DO…LOOP` |
| EwvmJumps.PlusLoopJumps | forthpiler/ewvm_translator.py:94-109 | the same for `DO…+LOOP` |
| EwvmJumps.IfJumps | forthpiler/ewvm_translator.py:111-142 | the same for both forms of `if` |
| EwvmJumps.LiteralJumps | forthpiler/ewvm_translator.py:144-168 | the same for a word expansion, whose `exit`/`recurse` jumps target its own labels |
| EwvmJumps.TranslationIsClosed | forthpiler/ewvm_translator.py:176-177 | from a new generator, a successful translation defines each structured label once and every branch targets a defined label (word-label text may still collide, see "Left out") |
| EwvmProperties.LoopOutputHasNoMarker | forthpiler/ewvm_translator.py:79-109 | a successful `DO…LOOP` or `DO…+LOOP` leaves no unresolved `i` for an enclosing loop to rebind |
| EwvmProperties.InnermostLoopBindsIndex | forthpiler/ewvm_translator.py:79-92 | in `DO DO i LOOP LOOP` the only index load is the inner loop's (`pushst n+1`); the outer loop's index is never loaded and no `i` is left |
| EwvmProperties.NestedLoopOutput | forthpiler/ewvm_translator.py:79-92 | `DO DO i LOOP LOOP` lowers to the outer loop's pieces around the inner loop's whole output, and uses two loop ids |
| EwvmProperties.NestedIndexLoads | forthpiler/ewvm_translator.py:238-245 | in loop n around loop n+1 around `i`, exactly the load of loop n+1's index occurs |
| EwvmProperties.ExpressionFuel | forthpiler/ewvm_translator.py:157 | an outcome reached without running out of fuel is the outcome for any larger bound |
| EwvmProperties.SeqFuel | forthpiler/ewvm_translator.py:176-177 | the same for a sequence |
| EwvmProperties.LoopBodyFuel | forthpiler/ewvm_translator.py:79-109 | the same for a loop body |
| EwvmProperties.IfFuel | forthpiler/ewvm_translator.py:111-142 | the same for `if` |
| EwvmProperties.LiteralFuel | forthpiler/ewvm_translator.py:144-168 | the same for a literal |
| EwvmProperties.SelfReferenceNeverEnds | forthpiler/ewvm_translator.py:157 | a word whose body is its own name exhausts every bound |
| EwvmProperties.LookupIgnoresCase | forthpiler/ewvm_translator.py:145 | literals that differ only in letter case translate alike |
| EwvmProperties.ExitLeavesTheExpansion | forthpiler/ewvm_translator.py:150-156 | `exit` in a word's body jumps to `endfunction{name}{k}` of that expansion |
| EwvmProperties.RecurseRestartsTheExpansion | forthpiler/ewvm_translator.py:150-156 | `recurse` in a word's body jumps to `function{name}{k}` of that expansion |
| EwvmProperties.ExitOutsideAWordFails | forthpiler/ewvm_translator.py:164-168 | outside any expansion `exit` fails: unknown literal, or `TypeError` once a restore left `None` |
| EwvmProperties.ExpansionLeavesExitAsNone | forthpiler/ewvm_translator.py:159-162 | after an expansion, a previously absent `exit` is present holding `None` |
| EwvmProperties.WordDefinitionRules | forthpiler/ewvm_translator.py:72-77 | a first definition records the body and emits nothing; a second raises and changes no field |
| EwvmProperties.TranslationConcatenates | forthpiler/ewvm_translator.py:176-177 | translating `a + b` is translating `a`, then `b` from the state `a` left, with the lines concatenated |
| EwvmProperties.AdditionExample | forthpiler/ewvm_translator.py:25-43 | `1 2 +` lowers to `pushi 1`, `pushi 2`, `add` |
| EwvmProperties.DefinitionExample | forthpiler/ewvm_translator.py:144-168 | `: two 2 ; two` lowers to `functiontwo0:`, `pushi 2`, `endfunctiontwo0:` |
| SemanticAnalyzer.SemanticAnalyzer.constructor | forthpiler/semantic_analyzer.py:12-27 | no names declared, depth 0 |
| SemanticAnalyzer.SemanticAnalyzer.Evaluate | forthpiler/semantic_analyzer.py:29-81 | error and fields equal `CheckExpression` for every node kind |
| SemanticAnalyzer.SemanticAnalyzer.Translate | forthpiler/semantic_analyzer.py:83-85 | the loop stops at the first error; error and fields equal `CheckAst` |
| SemanticAnalyzer.SemanticAnalyzer.VisitFunction | forthpiler/semantic_analyzer.py:38-40 | the name is appended, then the body is checked |
| SemanticAnalyzer.SemanticAnalyzer.VisitLoopBody | forthpiler/semantic_analyzer.py:42-50 | the depth is raised for the body and lowered only if the body passed |
| SemanticAnalyzer.SemanticAnalyzer.VisitVariableUse | forthpiler/semantic_analyzer.py:58-64 | fails with `Variable {name} not declared` exactly for undeclared names |
| SemanticAnalyzer.SemanticAnalyzer.VisitLiteral | forthpiler/semantic_analyzer.py:66-75 | the `j` depth rule first, then resolution against variables, words and primitive names |
| SemanticProperties.JNeedsANestedLoop | forthpiler/semantic_analyzer.py:67-68 | `j` passes exactly at depth 2 or more, whatever is declared; below that, the nested-loop error |
| SemanticProperties.LiteralResolves | forthpiler/semantic_analyzer.py:70-75 | any other literal passes exactly when it is a variable, a word or a primitive name; else `Unknown variable or function` |
| SemanticProperties.ExitAndRecurseAreUnknown | forthpiler/semantic_analyzer.py:16-27 | `exit` and `recurse` fail unless declared as a variable or word |
| SemanticProperties.LiteralKeepsScope | forthpiler/semantic_analyzer.py:66-75 | checking a literal changes no field |
| SemanticProperties.UseNeedsDeclaration | forthpiler/semantic_analyzer.py:58-64 | a store or fetch passes exactly when the name was declared |
| SemanticProperties.DeclarationMustComeFirst | forthpiler/semantic_analyzer.py:55-64 | a fetch before the declaration fails; after it, it passes |
| SemanticProperties.ConditionalsAreNotChecked | forthpiler/semantic_analyzer.py:52-53 | an `if` passes and changes nothing, whatever its branches hold |
| SemanticProperties.WordMaySelfReference | forthpiler/semantic_analyzer.py:38-40 | a word whose body names itself passes, unless the name is `j` and the depth is below 2 |
| SemanticProperties.RedefinitionIsAccepted | forthpiler/semantic_analyzer.py:38-40 | a second definition of a word is not an error |
| SemanticProperties.CheckAppend | forthpiler/semantic_analyzer.py:83-85 | checking `a + b` is checking `a`, then `b` from the state `a` left |
| SemanticProperties.ExpressionKeeps | forthpiler/semantic_analyzer.py:38-56 | name lists only grow at the end and depth never drops; on success the depth is back where it was |
| SemanticProperties.SeqKeeps | forthpiler/semantic_analyzer.py:83-85 | the same for a sequence |
| SemanticProperties.LoopKeeps | forthpiler/semantic_analyzer.py:42-50 | the same for a loop body |
| SemanticProperties.AstKeeps | forthpiler/semantic_analyzer.py:83-85 | the same for a whole tree |
| SemanticProperties.SiblingsSeeTheOuterDepth | forthpiler/semantic_analyzer.py:42-45 | after a loop that passed, the next expression is checked at the outer depth |
| SemanticProperties.ExpressionMonotone | forthpiler/semantic_analyzer.py:66-75 | what passes from a state passes from any state with more names and no less depth |
| SemanticProperties.SeqMonotone | forthpiler/semantic_analyzer.py:83-85 | the same for a sequence |
| SemanticProperties.LoopMonotone | forthpiler/semantic_analyzer.py:42-50 | the same for a loop body |
| SemanticProperties.MoreDeclarationsNeverHurt | forthpiler/semantic_analyzer.py:83-85 | the same for a whole tree |
| SemanticProperties.NestedJExample | forthpiler/semantic_analyzer.py:67-68 | `DO DO j LOOP LOOP` passes; `DO j LOOP` fails with the nested-loop error |
| PassAgreement.NestedJPassesCheckingButNotLowering | forthpiler/semantic_analyzer.py:16-27 | `DO DO j LOOP LOOP` passes the check, but the generator raises `Literal j not found` |
| PassAgreement.RedefinitionPassesCheckingButNotLowering | forthpiler/semantic_analyzer.py:38-40 | defining a word twice passes the check, but the generator raises `Function {name} already defined` |
| EarlyAst.EvaluateAll | src/forth_ast.py:94-95 | on success, one text per expression |
| EarlyAst.NumberPrintsItsValue | src/forth_ast.py:36-38 | a number prints `pushi ` and a decimal that reads back as the number |
| EarlyAst.OperatorTableUnchanged | src/forth_ast.py:64-80 | the operator table and its two failures match the later generator's, entry by entry |
| EarlyAst.NodeTextIsOneLine | src/forth_ast.py:36-80 | no node's text is empty or holds a newline |
| EarlyAst.EvaluationFailsOnlyOnUnsupported | src/forth_ast.py:64-95 | a program prints without error exactly when it has no `**` and no `/MOD` |
| EarlyAst.SplitJoin | src/forth_ast.py:94-95 | splitting the newline-joined lines gives them back, when no line holds a newline |
| EarlyAst.EachLineIsOneNode | src/forth_ast.py:94-95 | the k-th printed line is the k-th expression's text |
| EarlyAst.TreeTextSplitsBack | src/forth_ast.py:94-95 | a non-empty program's output splits back into exactly its expressions' texts |
| EarlyAst.EmptyTreePrintsNothing | src/forth_ast.py:94-95 | an empty program prints `""` |
| EarlyAst.NodeEqIsStructural | src/forth_ast.py:32-62 | two nodes compare equal exactly when they are the same node; same-kind comparison never fails |
| EarlyAst.NodesEqIsStructural | src/forth_ast.py:91-92 | element-by-element comparison succeeds exactly for equal lists |
| EarlyAst.TreeEqIsStructural | src/forth_ast.py:91-92 | two programs compare equal exactly when they hold the same expressions in the same order |
| EarlyTranslator.EarlyTranslator.constructor | src/ewvm_translator.py:5-9 | only `.` is a primitive; no user words |
| EarlyTranslator.EarlyTranslator.Evaluate | src/ewvm_translator.py:11-43 | result and tables equal `Eval` for each node kind |
| EarlyTranslator.EarlyTranslator.VisitFunction | src/ewvm_translator.py:31-35 | result and tables equal `Eval`: a duplicate raises, else the body is stored and `[]` returned |
| EarlyTranslator.EarlyTranslator.VisitLiteral | src/ewvm_translator.py:37-43 | result and tables equal `EvalLiteral`: user word first, then primitive, else `TranslationError` |
| EarlyTranslator.EarlyTranslator.Translate | src/ewvm_translator.py:45-46 | the loop's lines and tables equal `EvalProgram` |
| EarlyTranslator.TranslationConcatenates | src/ewvm_translator.py:45-46 | translating `a + b` is translating `a`, then `b` from the tables `a` left, with the lines concatenated |
| EarlyTranslator.EvalKeepsTables | src/ewvm_translator.py:31-43 | the primitive table never changes, and a stored word is never replaced |
| EarlyTranslator.SeqKeepsTables | src/ewvm_translator.py:45-46 | the same for a sequence |
| EarlyTranslator.ProgramKeepsTables | src/ewvm_translator.py:45-46 | the same for a whole program |
| EarlyTranslator.DefinitionRules | src/ewvm_translator.py:31-35 | a first definition stores the body and emits nothing; a second raises and changes nothing |
| EarlyTranslator.UserWordsShadowPrimitives | src/ewvm_translator.py:39-42 | a user word shadows a primitive of the same name and expands to its body's translation, with no labels |
| EarlyTranslator.UnknownLiteral | src/ewvm_translator.py:41-43 | any other name raises `Literal {name} not found` and changes nothing |
| EarlyTranslator.DotPrintsAnInteger | src/ewvm_translator.py:6-8 | `.` lowers to `writei` |
| EarlyTranslator.DefinitionExample | src/ewvm_translator.py:37-40 | `: two 2 ; two` lowers to just `pushi 2` |
| EarlyTranslator.NodeAgreesWithAst | src/ewvm_translator.py:11-29 | a number or operator gives exactly the one line the syntax-tree module prints for it, or the same error |
| EarlyTranslator.ArithmeticAgreesWithAst | src/ewvm_translator.py:45-46 | for numbers and operators, the generator's lines are the syntax-tree module's texts, and that module's program text is those lines joined by newlines |

## Left out

- Lexers and parsers (PLY rule tables) are not part of this model. The
  tree is taken as given.
- The visualizer, the REPL front ends, the HTTP clients and terminal
  colouring are not part of this model.
- What EWVM does when it runs the emitted code is not modelled. Only the
  text is.
- Python's call-stack limit: word expansion is bounded by `fuel`, and
  exhausting it is `RecursionLimit`. The fuel lemmas show that any other
  result is independent of the bound.
- EwvmLabels.ExpressionLabels, EwvmLabels.AstLabels and
  EwvmJumps.TranslationIsClosed: label uniqueness is proved for the
  structured `Label` values, not for their text. A word label is
  `function{name}{counter}` with no separator, so two expansions can
  render the same text: `: x ; : a1 ; : a ; x x a1 x x x x x x x x x a`
  defines `functiona12:` and `endfunctiona12:` twice, which makes the
  targets of `exit` and `recurse` ambiguous
  (`EwvmLowering.FunctionLabelsCanCollide`).
- Common.Lower: folds only the ASCII letters A–Z, not the rest of
  Unicode.
- The generator reads `if_statement.always`, which does not exist. It is
  modelled as an empty tree, so both `if` forms end at `endif{n}:`.
- The generator reads `char_function.content`, but the node's field is
  `char_code`. The model emits the code.
- The syntax tree dispatches words to `visit_word`, but both passes
  define `visit_function`. The model takes `visit_function` as the word
  visitor.
- Visitors that are missing in the source:
  - The generator has none for variable and constant declarations,
    stores, fetches and `BEGIN` loops.
  - The analyzer has none for constant declarations and `BEGIN` loops.
  - The model gives these nodes an `Unsupported` error. It does not
    model the instantiation failure of the abstract base class.
- The earlier generator imports `Translator`, `Function`, `Literal` and
  `TranslationError` from a syntax-tree module that does not define
  them. It is modelled against its own node set instead.
- A primitive entry holding `None` makes Python's comprehension raise
  `TypeError`. The model raises it at the literal itself.
- SemanticSpec.PrimitiveNames: keeps only the names of the analyzer's
  primitive table, because its instruction lists are never read.
- Python integers are unbounded, and so are the model's. No width is
  modelled.
