/**
 * The EWVM code generator as the object it is: a visitor whose fields
 * (the primitive table, the user word table and three label counters)
 * change while it walks the tree. Every method is proved to do exactly
 * what the matching function of `EwvmSpec` says, both the lines it
 * returns or the exception it raises and the fields it leaves behind.
 */
module EwvmTranslator {
  import opened Common
  import opened Syntax
  import opened EwvmLowering
  import opened EwvmSpec

  class EwvmTranslator {
    var predefinedFunctions: map<string, Option<seq<Line>>>
    var userDefinedFunctions: map<string, AbstractSyntaxTree>
    var ifCounter: nat
    var whileCounter: nat
    var functionCounter: nat

    /** The fields, read as one value. */
    function State(): Session
      reads this
    {
      Session(predefinedFunctions, userDefinedFunctions, ifCounter, whileCounter, functionCounter)
    }

    constructor ()
      ensures State() == InitialSession()
    {
      predefinedFunctions := InitialPredefined();
      userDefinedFunctions := map[];
      ifCounter := 0;
      whileCounter := 0;
      functionCounter := 0;
    }

    /** `expr.evaluate(self)`: dispatch on the node kind. */
    method Evaluate(e: Expression, fuel: nat) returns (r: Result<seq<Line>, Failure>)
      modifies this
      ensures Outcome(r, State()) == EvalExpression(old(State()), e, fuel)
      decreases fuel, e, 2
    {
      match e
      case Number(n) => r := Ok(VisitNumber(n));
      case Operator(t) => r := VisitOperator(t);
      case ComparisonOperator(t) => r := Ok(VisitComparisonOperator(t));
      case Word(_, _) => r := VisitFunction(e);
      case DoLoopStatement(_) => r := VisitDoLoopStatement(e, fuel);
      case DoPlusLoopStatement(_) => r := VisitDoPlusLoopStatement(e, fuel);
      case IfStatement(_, _) => r := VisitIfStatement(e, fuel);
      case Literal(_) => r := VisitLiteral(e, fuel);
      case PrintString(c) => r := Ok(PrintStringLines(c));
      case CharFunction(c) => r := Ok(CharFunctionLines(c));
      case BeginUntilStatement(_) => r := Err(Unsupported("BeginUntilStatement"));
      case BeginAgainStatement(_) => r := Err(Unsupported("BeginAgainStatement"));
      case VariableDeclaration(_) => r := Err(Unsupported("VariableDeclaration"));
      case ConstantDeclaration(_) => r := Err(Unsupported("ConstantDeclaration"));
      case StoreVariable(_) => r := Err(Unsupported("StoreVariable"));
      case FetchVariable(_) => r := Err(Unsupported("FetchVariable"));
    }

    /** `translate`: evaluate the expressions left to right, concatenating their lines. */
    method Translate(ast: AbstractSyntaxTree, fuel: nat) returns (r: Result<seq<Line>, Failure>)
      modifies this
      ensures Outcome(r, State()) == EvalAst(old(State()), ast, fuel)
      decreases fuel, ast, 0
    {
      var es := ast.expressions;
      var lines: seq<Line> := [];
      var k := 0;
      assert es[k..] == es;
      ContinueNothing(EvalSeq(State(), es, fuel));
      while k < |es|
        invariant 0 <= k <= |es|
        invariant EvalSeq(old(State()), es, fuel) == Continue(lines, EvalSeq(State(), es[k..], fuel))
      {
        assert es[k..][0] == es[k] && es[k..][1..] == es[k + 1..];
        var part := Evaluate(es[k], fuel);
        if part.Err? {
          r := part;
          return;
        }
        ContinueContinue(lines, part.value, EvalSeq(State(), es[k + 1..], fuel));
        lines := lines + part.value;
        k := k + 1;
      }
      assert lines + [] == lines;
      r := Ok(lines);
    }

    /** `visit_function`: a second definition of a name is an error. */
    method VisitFunction(word: Expression) returns (r: Result<seq<Line>, Failure>)
      requires word.Word?
      modifies this
      ensures Outcome(r, State()) == EvalWord(old(State()), word)
    {
      if word.name in userDefinedFunctions {
        r := Err(TranslationError("Function " + word.name + " already defined"));
        return;
      }
      userDefinedFunctions := userDefinedFunctions[word.name := word.ast];
      r := Ok([]);
    }

    method VisitDoLoopStatement(doLoop: Expression, fuel: nat) returns (r: Result<seq<Line>, Failure>)
      requires doLoop.DoLoopStatement?
      modifies this
      ensures Outcome(r, State()) == EvalDoLoop(old(State()), doLoop, fuel)
      decreases fuel, doLoop, 1
    {
      var current := whileCounter;
      whileCounter := whileCounter + 1;
      var body := Translate(doLoop.body, fuel);
      if body.Err? {
        r := body;
        return;
      }
      var loopBody := GenerateLoopBody(body.value, current);
      r := Ok(LoopInitialization(current) + LoopCondition(current) + loopBody + LoopEnd(current));
      assert r.value == DoLoopLines(body.value, current);
    }

    method VisitDoPlusLoopStatement(doLoop: Expression, fuel: nat) returns (r: Result<seq<Line>, Failure>)
      requires doLoop.DoPlusLoopStatement?
      modifies this
      ensures Outcome(r, State()) == EvalDoPlusLoop(old(State()), doLoop, fuel)
      decreases fuel, doLoop, 1
    {
      var current := whileCounter;
      whileCounter := whileCounter + 1;
      var body := Translate(doLoop.body, fuel);
      if body.Err? {
        r := body;
        return;
      }
      var loopBody := GenerateLoopBody(body.value, current);
      r := Ok(PlusLoopInitialization(current) + PlusLoopCondition(current) + loopBody + PlusLoopEnd(current));
      assert r.value == DoPlusLoopLines(body.value, current);
    }

    /** `visit_if_statement` with its two helpers inlined as the two branches. */
    method VisitIfStatement(ifStatement: Expression, fuel: nat) returns (r: Result<seq<Line>, Failure>)
      requires ifStatement.IfStatement?
      modifies this
      ensures Outcome(r, State()) == EvalIf(old(State()), ifStatement, fuel)
      decreases fuel, ifStatement, 1
    {
      var current := ifCounter;
      ifCounter := ifCounter + 1;
      var ifTrue := Translate(ifStatement.ifTrue, fuel);
      if ifTrue.Err? {
        r := ifTrue;
        return;
      }
      if ifStatement.WithElse() {
        var ifFalse := Translate(ifStatement.ifFalse.value, fuel);
        if ifFalse.Err? {
          r := ifFalse;
          return;
        }
        r := Ok([Jz(Else(current))] + ifTrue.value + [Jump(EndIf(current)), Define(Else(current))]
                + ifFalse.value + [Define(EndIf(current))]);
      } else {
        r := Ok([Jz(EndIf(current))] + ifTrue.value + [Define(EndIf(current))]);
      }
    }

    /** `visit_literal`: expand a user word in place, else look up a primitive. */
    method VisitLiteral(literal: Expression, fuel: nat) returns (r: Result<seq<Line>, Failure>)
      requires literal.Literal?
      modifies this
      ensures Outcome(r, State()) == EvalLiteral(old(State()), literal, fuel)
      decreases fuel, literal, 1
    {
      var value := Lower(literal.content);
      if value in userDefinedFunctions {
        if fuel == 0 {
          r := Err(RecursionLimit);
          return;
        }
        var previousRecurse := Get(predefinedFunctions, "recurse");
        var previousExit := Get(predefinedFunctions, "exit");
        var k := functionCounter;
        predefinedFunctions := predefinedFunctions["exit" := Some([Jump(FunctionEnd(value, k))])];
        predefinedFunctions := predefinedFunctions["recurse" := Some([Jump(FunctionStart(value, k))])];
        functionCounter := functionCounter + 1;
        var body := Translate(userDefinedFunctions[value], fuel - 1);
        if body.Err? {
          r := body;
          return;
        }
        r := Ok([Define(FunctionStart(value, k))] + body.value + [Define(FunctionEnd(value, k))]);
        predefinedFunctions := predefinedFunctions["recurse" := previousRecurse];
        predefinedFunctions := predefinedFunctions["exit" := previousExit];
        return;
      }
      if value in predefinedFunctions {
        match predefinedFunctions[value] {
          case Some(lines) => r := Ok(lines);
          case None => r := Err(TypeError);
        }
        return;
      }
      r := Err(TranslationError("Literal " + value + " not found"));
    }

    /** `_generate_loop_body`: replace each index marker by a load of this loop's counter. */
    method GenerateLoopBody(body: seq<Line>, current: nat) returns (r: seq<Line>)
      ensures r == RewriteIndex(body, current)
    {
      r := body;
      for index := 0 to |r|
        invariant |r| == |body|
        invariant forall k :: 0 <= k < index ==> r[k] == RewriteIndex(body, current)[k]
        invariant forall k :: index <= k < |r| ==> r[k] == body[k]
      {
        if r[index] == IndexMarker {
          r := r[index := IndexLoad(current)];
        }
      }
    }
  }
}
