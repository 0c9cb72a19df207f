/**
 * Where the name-checking pass and the EWVM code generator disagree
 * about the same program: both are run from a fresh object.
 */
module PassAgreement {
  import opened Common
  import opened Syntax
  import opened EwvmLowering
  import opened EwvmSpec
  import opened SemanticSpec

  /**
   * `j` inside two loops passes the name check, but the generator's
   * primitive table has no `j`, so lowering the same program fails.
   */
  lemma NestedJPassesCheckingButNotLowering(fuel: nat)
    ensures var ast := AbstractSyntaxTree([DoLoopStatement(AbstractSyntaxTree([
              DoLoopStatement(AbstractSyntaxTree([Literal("j")]))]))]);
      CheckAst(InitialScope(), ast).error == None &&
      EvalAst(InitialSession(), ast, fuel).result == Err(TranslationError("Literal j not found"))
  {
    var j := Literal("j");
    var inner := DoLoopStatement(AbstractSyntaxTree([j]));
    var outer := DoLoopStatement(AbstractSyntaxTree([inner]));
    var c := InitialScope();
    assert "j" in PrimitiveNames();
    CheckSingle(c.(loopDepth := 2), j);
    CheckSingle(c.(loopDepth := 1), inner);
    CheckSingle(c, outer);

    var s := InitialSession();
    var s1 := s.(whileCounter := 1);
    var s2 := s.(whileCounter := 2);
    LowerFixesLowered("j");
    assert Lower("j") == "j";
    assert "j" !in InitialPredefined();
    assert "Literal " + "j" + " not found" == "Literal j not found";
    assert EvalExpression(s2, j, fuel) == EvalLiteral(s2, j, fuel);
    EvalSingle(s2, j, fuel);
    assert EvalExpression(s1, inner, fuel) == EvalDoLoop(s1, inner, fuel);
    EvalSingle(s1, inner, fuel);
    assert EvalExpression(s, outer, fuel) == EvalDoLoop(s, outer, fuel);
    EvalSingle(s, outer, fuel);
  }

  /** Defining a word twice passes the name check; the generator rejects the second definition. */
  lemma RedefinitionPassesCheckingButNotLowering(name: string, fuel: nat)
    ensures var ast := AbstractSyntaxTree([Word(name, AbstractSyntaxTree([])), Word(name, AbstractSyntaxTree([]))]);
      CheckAst(InitialScope(), ast).error == None &&
      EvalAst(InitialSession(), ast, fuel).result == Err(TranslationError("Function " + name + " already defined"))
  {
    var w := Word(name, AbstractSyntaxTree([]));
    assert [w] + [w] == [w, w];
    var c := InitialScope();
    assert c.functions + [name] == [name];
    assert CheckExpression(c, w) == Report(None, c.(functions := [name]));
    CheckCons(c, w, [w]);
    CheckSingle(c.(functions := [name]), w);

    var s := InitialSession();
    var s1 := s.(userDefinedFunctions := map[name := AbstractSyntaxTree([])]);
    EvalCons(s, w, [w], fuel);
    EvalSingle(s1, w, fuel);
  }
}
