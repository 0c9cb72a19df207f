/**
 * What the name-checking pass computes, as functions of its state: the
 * declared variables and words (in declaration order, duplicates kept)
 * and the current loop depth. Every visitor gives the error it raised,
 * if any, and the state afterwards. The pass stops at the first error
 * and rolls nothing back: a failure inside a loop body leaves the depth
 * raised.
 */
module SemanticSpec {
  import opened Common
  import opened Syntax

  /** The analyzer's fields. */
  datatype Scope = Scope(variables: seq<string>, functions: seq<string>, loopDepth: int)

  function InitialScope(): Scope {
    Scope([], [], 0)
  }

  /**
   * The names of the analyzer's primitive table. Only membership is ever
   * read, so the instruction lists stored beside them are not kept.
   */
  function PrimitiveNames(): set<string> {
    {".", "emit", "space", "cr", "swap", "dup", "2dup", "drop", "i", "j"}
  }

  /**
   * `SemanticError` with its message; `Unsupported` stands for the node
   * kinds the analyzer has no visitor for.
   */
  datatype AnalysisError = SemanticError(message: string) | Unsupported(kind: string)

  /** What a visitor raised, if anything, and the state afterwards. */
  datatype Report = Report(error: Option<AnalysisError>, scope: Scope)

  /** `expr.evaluate(analyzer)`: one visitor per node kind. */
  function CheckExpression(s: Scope, e: Expression): Report
    decreases e, 2
  {
    match e
    case Number(_) => Report(None, s)
    case Operator(_) => Report(None, s)
    case ComparisonOperator(_) => Report(None, s)
    case PrintString(_) => Report(None, s)
    case CharFunction(_) => Report(None, s)
    case IfStatement(_, _) => Report(None, s)
    case Word(name, ast) => CheckAst(s.(functions := s.functions + [name]), ast)
    case DoLoopStatement(body) => CheckLoop(s, body)
    case DoPlusLoopStatement(body) => CheckLoop(s, body)
    case VariableDeclaration(name) => Report(None, s.(variables := s.variables + [name]))
    case StoreVariable(name) => CheckDeclared(s, name)
    case FetchVariable(name) => CheckDeclared(s, name)
    case Literal(content) => CheckLiteral(s, content)
    case BeginUntilStatement(_) => Report(Some(Unsupported("BeginUntilStatement")), s)
    case BeginAgainStatement(_) => Report(Some(Unsupported("BeginAgainStatement")), s)
    case ConstantDeclaration(_) => Report(Some(Unsupported("ConstantDeclaration")), s)
  }

  /** `translate`: the expressions left to right; the first error stops the walk. */
  function CheckAst(s: Scope, ast: AbstractSyntaxTree): Report
    decreases ast, 0
  {
    CheckSeq(s, ast.expressions)
  }

  function CheckSeq(s: Scope, es: seq<Expression>): Report
    decreases es, 0
  {
    if es == [] then Report(None, s)
    else
      var first := CheckExpression(s, es[0]);
      if first.error.Some? then first else CheckSeq(first.scope, es[1..])
  }

  /** Both loop visitors: one level deeper for the body, one level back after it. */
  function CheckLoop(s: Scope, body: AbstractSyntaxTree): Report
    decreases body, 1
  {
    var inside := CheckAst(s.(loopDepth := s.loopDepth + 1), body);
    if inside.error.Some? then inside
    else Report(None, inside.scope.(loopDepth := inside.scope.loopDepth - 1))
  }

  /** `visit_store_variable` and `visit_fetch_variable`. */
  function CheckDeclared(s: Scope, name: string): Report {
    if name in s.variables then Report(None, s)
    else Report(Some(SemanticError("Variable " + name + " not declared")), s)
  }

  /** `visit_literal`: the `j` depth rule first, then name resolution. */
  function CheckLiteral(s: Scope, content: string): Report {
    if content == "j" && s.loopDepth < 2 then
      Report(Some(SemanticError("j is only allowed inside a nested loop")), s)
    else if content !in s.variables && content !in s.functions && content !in PrimitiveNames() then
      Report(Some(SemanticError("Unknown variable or function " + content)), s)
    else Report(None, s)
  }

  /** A tree of one expression is checked as that expression. */
  lemma CheckSingle(s: Scope, e: Expression)
    ensures CheckSeq(s, [e]) == CheckExpression(s, e)
  {
    assert [e][0] == e && [e][1..] == [];
  }

  /** The first expression, then the rest from the state it left. */
  lemma CheckCons(s: Scope, e: Expression, rest: seq<Expression>)
    ensures CheckSeq(s, [e] + rest) ==
      var first := CheckExpression(s, e);
      if first.error.Some? then first else CheckSeq(first.scope, rest)
  {
    assert ([e] + rest)[0] == e && ([e] + rest)[1..] == rest;
  }
}
