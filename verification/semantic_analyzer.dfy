/**
 * The name-checking pass as the object it is: a visitor whose two name
 * lists grow and whose loop depth goes up and down while it walks the
 * tree. Raising `SemanticError` is returning `Some(error)`. Every method
 * is proved to do what the matching function of `SemanticSpec` says,
 * both the error and the fields it leaves behind.
 */
module SemanticAnalyzer {
  import opened Common
  import opened Syntax
  import opened SemanticSpec

  class SemanticAnalyzer {
    var variables: seq<string>
    var functions: seq<string>
    var loopDepth: int

    /** The fields, read as one value. */
    function State(): Scope
      reads this
    {
      Scope(variables, functions, loopDepth)
    }

    constructor ()
      ensures State() == InitialScope()
    {
      variables := [];
      functions := [];
      loopDepth := 0;
    }

    /** `expr.evaluate(analyzer)`: dispatch on the node kind. */
    method Evaluate(e: Expression) returns (error: Option<AnalysisError>)
      modifies this
      ensures Report(error, State()) == CheckExpression(old(State()), e)
      decreases e, 2
    {
      match e
      case Number(_) => error := None;
      case Operator(_) => error := None;
      case ComparisonOperator(_) => error := None;
      case PrintString(_) => error := None;
      case CharFunction(_) => error := None;
      case IfStatement(_, _) => error := None;
      case Word(_, _) => error := VisitFunction(e);
      case DoLoopStatement(body) => error := VisitLoopBody(body);
      case DoPlusLoopStatement(body) => error := VisitLoopBody(body);
      case VariableDeclaration(name) => variables := variables + [name]; error := None;
      case StoreVariable(name) => error := VisitVariableUse(name);
      case FetchVariable(name) => error := VisitVariableUse(name);
      case Literal(content) => error := VisitLiteral(content);
      case BeginUntilStatement(_) => error := Some(Unsupported("BeginUntilStatement"));
      case BeginAgainStatement(_) => error := Some(Unsupported("BeginAgainStatement"));
      case ConstantDeclaration(_) => error := Some(Unsupported("ConstantDeclaration"));
    }

    /** `translate`: a `for` loop over the expressions that stops at the first error. */
    method Translate(ast: AbstractSyntaxTree) returns (error: Option<AnalysisError>)
      modifies this
      ensures Report(error, State()) == CheckAst(old(State()), ast)
      decreases ast, 0
    {
      var es := ast.expressions;
      var k := 0;
      assert es[k..] == es;
      while k < |es|
        invariant 0 <= k <= |es|
        invariant CheckSeq(old(State()), es) == CheckSeq(State(), es[k..])
      {
        assert es[k..][0] == es[k] && es[k..][1..] == es[k + 1..];
        error := Evaluate(es[k]);
        if error.Some? {
          return;
        }
        k := k + 1;
      }
      error := None;
    }

    /** `visit_function`: register the name, then check the body. */
    method VisitFunction(word: Expression) returns (error: Option<AnalysisError>)
      requires word.Word?
      modifies this
      ensures Report(error, State()) == CheckExpression(old(State()), word)
      decreases word, 1
    {
      functions := functions + [word.name];
      error := Translate(word.ast);
    }

    /** `visit_do_loop_statement` and `visit_do_plus_loop_statement`, which are identical. */
    method VisitLoopBody(body: AbstractSyntaxTree) returns (error: Option<AnalysisError>)
      modifies this
      ensures Report(error, State()) == CheckLoop(old(State()), body)
      decreases body, 1
    {
      loopDepth := loopDepth + 1;
      error := Translate(body);
      if error.Some? {
        return;
      }
      loopDepth := loopDepth - 1;
    }

    /** `visit_store_variable` and `visit_fetch_variable`, which are identical. */
    method VisitVariableUse(name: string) returns (error: Option<AnalysisError>)
      ensures Report(error, State()) == CheckDeclared(State(), name)
    {
      if name !in variables {
        return Some(SemanticError("Variable " + name + " not declared"));
      }
      return None;
    }

    /** `visit_literal`. */
    method VisitLiteral(content: string) returns (error: Option<AnalysisError>)
      ensures Report(error, State()) == CheckLiteral(State(), content)
    {
      if content == "j" && loopDepth < 2 {
        return Some(SemanticError("j is only allowed inside a nested loop"));
      }
      if content !in variables && content !in functions && content !in PrimitiveNames() {
        return Some(SemanticError("Unknown variable or function " + content));
      }
      return None;
    }
  }
}
