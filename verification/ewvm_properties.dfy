/**
 * Properties of word expansion and of the fuel bound: results that did
 * not run out of fuel are the results the generator computes, a word
 * whose body names itself expands forever, `exit` and `recurse` jump to
 * the labels of the expansion they occur in, and lookups ignore letter
 * case.
 */
module EwvmProperties {
  import opened Common
  import opened Syntax
  import opened EwvmLowering
  import opened EwvmSpec
  import opened EwvmSession

  // ---------------------------------------------------------------------
  // Fuel
  // ---------------------------------------------------------------------

  /** An outcome reached without exhausting `f` is the outcome for every larger bound. */
  lemma {:induction false} ExpressionFuel(s: Session, e: Expression, f: nat, g: nat)
    requires f <= g
    requires EvalExpression(s, e, f).result != Err(RecursionLimit)
    ensures EvalExpression(s, e, g) == EvalExpression(s, e, f)
    decreases f, e, 2
  {
    match e
    case DoLoopStatement(body) =>
      assert EvalExpression(s, e, f) == EvalDoLoop(s, e, f);
      LoopBodyFuel(s, body, f, g);
    case DoPlusLoopStatement(body) =>
      assert EvalExpression(s, e, f) == EvalDoPlusLoop(s, e, f);
      LoopBodyFuel(s, body, f, g);
    case IfStatement(_, _) => IfFuel(s, e, f, g);
    case Literal(_) => LiteralFuel(s, e, f, g);
    case _ =>
  }

  lemma {:induction false} SeqFuel(s: Session, es: seq<Expression>, f: nat, g: nat)
    requires f <= g
    requires EvalSeq(s, es, f).result != Err(RecursionLimit)
    ensures EvalSeq(s, es, g) == EvalSeq(s, es, f)
    decreases f, es, 0
  {
    if es != [] {
      var first := EvalExpression(s, es[0], f);
      ExpressionFuel(s, es[0], f, g);
      if first.result.Ok? {
        SeqFuel(first.session, es[1..], f, g);
      }
    }
  }

  /** Both loop visitors fail exactly when their body does, with the body's outcome. */
  lemma {:induction false} LoopBodyFuel(s: Session, body: AbstractSyntaxTree, f: nat, g: nat)
    requires f <= g
    requires EvalAst(s.(whileCounter := s.whileCounter + 1), body, f).result != Err(RecursionLimit)
    ensures EvalAst(s.(whileCounter := s.whileCounter + 1), body, g) == EvalAst(s.(whileCounter := s.whileCounter + 1), body, f)
    decreases f, body, 1
  {
    SeqFuel(s.(whileCounter := s.whileCounter + 1), body.expressions, f, g);
  }

  lemma {:induction false} IfFuel(s: Session, ifStatement: Expression, f: nat, g: nat)
    requires ifStatement.IfStatement?
    requires f <= g
    requires EvalIf(s, ifStatement, f).result != Err(RecursionLimit)
    ensures EvalIf(s, ifStatement, g) == EvalIf(s, ifStatement, f)
    decreases f, ifStatement, 1
  {
    var inside := s.(ifCounter := s.ifCounter + 1);
    var ifTrue := EvalAst(inside, ifStatement.ifTrue, f);
    SeqFuel(inside, ifStatement.ifTrue.expressions, f, g);
    assert EvalAst(inside, ifStatement.ifTrue, g) == ifTrue;
    if ifTrue.result.Ok? && ifStatement.WithElse() {
      var ifFalse := EvalAst(ifTrue.session, ifStatement.ifFalse.value, f);
      SeqFuel(ifTrue.session, ifStatement.ifFalse.value.expressions, f, g);
      assert EvalAst(ifTrue.session, ifStatement.ifFalse.value, g) == ifFalse;
    }
  }

  lemma {:induction false} LiteralFuel(s: Session, literal: Expression, f: nat, g: nat)
    requires literal.Literal?
    requires f <= g
    requires EvalLiteral(s, literal, f).result != Err(RecursionLimit)
    ensures EvalLiteral(s, literal, g) == EvalLiteral(s, literal, f)
    decreases f, literal, 1
  {
    var value := Lower(literal.content);
    if value in s.userDefinedFunctions {
      var k := s.functionCounter;
      var inside := s.(predefinedFunctions := BindExitAndRecurse(s.predefinedFunctions, value, k),
                       functionCounter := k + 1);
      var body := EvalAst(inside, s.userDefinedFunctions[value], f - 1);
      SeqFuel(inside, s.userDefinedFunctions[value].expressions, f - 1, g - 1);
      assert EvalAst(inside, s.userDefinedFunctions[value], g - 1) == body;
      assert EvalLiteral(s, literal, f) == ExpansionOutcome(body, s.predefinedFunctions, value, k);
      assert EvalLiteral(s, literal, g) == ExpansionOutcome(body, s.predefinedFunctions, value, k);
    }
  }

  /**
   * A word whose body is its own name expands forever: no bound is
   * enough, as no stack is deep enough for the generator.
   */
  lemma {:induction false} SelfReferenceNeverEnds(s: Session, name: string, fuel: nat)
    requires Lower(name) in s.userDefinedFunctions
    requires s.userDefinedFunctions[Lower(name)] == AbstractSyntaxTree([Literal(name)])
    ensures EvalExpression(s, Literal(name), fuel).result == Err(RecursionLimit)
    decreases fuel
  {
    var e := Literal(name);
    assert EvalExpression(s, e, fuel) == EvalLiteral(s, e, fuel);
    if fuel > 0 {
      var value := Lower(name);
      var k := s.functionCounter;
      var inside := s.(predefinedFunctions := BindExitAndRecurse(s.predefinedFunctions, value, k),
                       functionCounter := k + 1);
      SelfReferenceNeverEnds(inside, name, fuel - 1);
      EvalSingle(inside, e, fuel - 1);
      assert EvalAst(inside, s.userDefinedFunctions[value], fuel - 1).result == Err(RecursionLimit);
    }
  }

  // ---------------------------------------------------------------------
  // Word expansion
  // ---------------------------------------------------------------------

  /** Literals that differ only in letter case translate alike. */
  lemma LookupIgnoresCase(s: Session, a: string, b: string, fuel: nat)
    requires EqualIgnoringCase(a, b)
    ensures EvalExpression(s, Literal(a), fuel) == EvalExpression(s, Literal(b), fuel)
  {
    EqualIgnoringCaseLowersAlike(a, b);
  }

  /** Inside the expansion of word `v`, `exit` jumps to the end label of that expansion. */
  lemma ExitLeavesTheExpansion(s: Session, name: string, fuel: nat)
    requires Lower(name) in s.userDefinedFunctions
    requires s.userDefinedFunctions[Lower(name)] == AbstractSyntaxTree([Literal("exit")])
    requires "exit" !in s.userDefinedFunctions
    requires fuel > 0
    ensures var v, k := Lower(name), s.functionCounter;
      EvalExpression(s, Literal(name), fuel).result ==
        Ok([Define(FunctionStart(v, k)), Jump(FunctionEnd(v, k)), Define(FunctionEnd(v, k))])
  {
    LowerFixesLowered("exit");
    assert Lower("exit") == "exit";
    var v, k := Lower(name), s.functionCounter;
    var inside := s.(predefinedFunctions := BindExitAndRecurse(s.predefinedFunctions, v, k),
                     functionCounter := k + 1);
    var exit := Literal("exit");
    assert EvalExpression(inside, exit, fuel - 1) == Outcome(Ok([Jump(FunctionEnd(v, k))]), inside);
    EvalSingle(inside, exit, fuel - 1);
    assert [Define(FunctionStart(v, k))] + [Jump(FunctionEnd(v, k))] + [Define(FunctionEnd(v, k))]
      == [Define(FunctionStart(v, k)), Jump(FunctionEnd(v, k)), Define(FunctionEnd(v, k))];
    assert EvalExpression(s, Literal(name), fuel) == EvalLiteral(s, Literal(name), fuel);
  }

  /** Inside the expansion of word `v`, `recurse` jumps back to the start label of that expansion. */
  lemma RecurseRestartsTheExpansion(s: Session, name: string, fuel: nat)
    requires Lower(name) in s.userDefinedFunctions
    requires s.userDefinedFunctions[Lower(name)] == AbstractSyntaxTree([Literal("recurse")])
    requires "recurse" !in s.userDefinedFunctions
    requires fuel > 0
    ensures var v, k := Lower(name), s.functionCounter;
      EvalExpression(s, Literal(name), fuel).result ==
        Ok([Define(FunctionStart(v, k)), Jump(FunctionStart(v, k)), Define(FunctionEnd(v, k))])
  {
    LowerFixesLowered("recurse");
    assert Lower("recurse") == "recurse";
    var v, k := Lower(name), s.functionCounter;
    var inside := s.(predefinedFunctions := BindExitAndRecurse(s.predefinedFunctions, v, k),
                     functionCounter := k + 1);
    var recurse := Literal("recurse");
    assert EvalExpression(inside, recurse, fuel - 1) == Outcome(Ok([Jump(FunctionStart(v, k))]), inside);
    EvalSingle(inside, recurse, fuel - 1);
    assert [Define(FunctionStart(v, k))] + [Jump(FunctionStart(v, k))] + [Define(FunctionEnd(v, k))]
      == [Define(FunctionStart(v, k)), Jump(FunctionStart(v, k)), Define(FunctionEnd(v, k))];
    assert EvalExpression(s, Literal(name), fuel) == EvalLiteral(s, Literal(name), fuel);
  }

  /**
   * Outside every expansion `exit` is not a primitive: a new translator
   * reports it as an unknown literal, and once some expansion has put the
   * key back as `None`, iterating that `None` fails instead.
   */
  lemma ExitOutsideAWordFails(s: Session, fuel: nat)
    requires "exit" !in s.userDefinedFunctions
    requires Get(s.predefinedFunctions, "exit") == None
    ensures var o := EvalExpression(s, Literal("exit"), fuel);
      o.session == s &&
      o.result == if "exit" in s.predefinedFunctions then Err(TypeError)
                  else Err(TranslationError("Literal exit not found"))
  {
    LowerFixesLowered("exit");
    assert Lower("exit") == "exit";
    assert "Literal " + "exit" + " not found" == "Literal exit not found";
    assert EvalExpression(s, Literal("exit"), fuel) == EvalLiteral(s, Literal("exit"), fuel);
    if "exit" in s.predefinedFunctions {
      assert s.predefinedFunctions["exit"] == None;
    }
  }

  /** A successful expansion leaves `exit` readable as `None` where it was absent. */
  lemma ExpansionLeavesExitAsNone(s: Session, name: string, fuel: nat)
    requires "exit" !in s.predefinedFunctions
    requires Lower(name) in s.userDefinedFunctions
    ensures var o := EvalExpression(s, Literal(name), fuel);
      o.result.Ok? && fuel > 0 ==>
        "exit" in o.session.predefinedFunctions && o.session.predefinedFunctions["exit"] == None
  {
    assert EvalExpression(s, Literal(name), fuel) == EvalLiteral(s, Literal(name), fuel);
  }

  // ---------------------------------------------------------------------
  // Definitions and concatenation
  // ---------------------------------------------------------------------

  /** A first definition records the body and emits nothing; a second raises and changes nothing. */
  lemma WordDefinitionRules(s: Session, name: string, body: AbstractSyntaxTree, fuel: nat)
    ensures var o := EvalExpression(s, Word(name, body), fuel);
      if name in s.userDefinedFunctions then
        o == Outcome(Err(TranslationError("Function " + name + " already defined")), s)
      else
        o.result == Ok([]) && o.session.userDefinedFunctions == s.userDefinedFunctions[name := body] &&
        o.session.predefinedFunctions == s.predefinedFunctions &&
        o.session.ifCounter == s.ifCounter && o.session.whileCounter == s.whileCounter &&
        o.session.functionCounter == s.functionCounter
  {
  }

  /** Translating `a + b` translates `a`, then `b` from the session `a` left; the lines concatenate. */
  lemma {:induction false} TranslationConcatenates(s: Session, a: seq<Expression>, b: seq<Expression>, fuel: nat)
    ensures EvalSeq(s, a + b, fuel) ==
      var first := EvalSeq(s, a, fuel);
      if first.result.Err? then first else Continue(first.result.value, EvalSeq(first.session, b, fuel))
    decreases a
  {
    if a == [] {
      assert a + b == b;
      ContinueNothing(EvalSeq(s, b, fuel));
    } else {
      assert (a + b)[0] == a[0] && (a + b)[1..] == a[1..] + b;
      var head := EvalExpression(s, a[0], fuel);
      if head.result.Ok? {
        TranslationConcatenates(head.session, a[1..], b, fuel);
        var mid := EvalSeq(head.session, a[1..], fuel);
        if mid.result.Ok? {
          ContinueContinue(head.result.value, mid.result.value, EvalSeq(mid.session, b, fuel));
        }
      }
    }
  }

  // ---------------------------------------------------------------------
  // The loop index `i`
  // ---------------------------------------------------------------------

  /**
   * A loop's output, on success, holds no unresolved `i`: an enclosing
   * loop's rewrite therefore leaves it as it is
   * (`MarkerFreeRewriteIsIdentity`).
   */
  lemma LoopOutputHasNoMarker(s: Session, e: Expression, fuel: nat)
    requires e.DoLoopStatement? || e.DoPlusLoopStatement?
    ensures var o := EvalExpression(s, e, fuel);
      o.result.Ok? ==> IndexMarker !in o.result.value
  {
    var n := s.whileCounter;
    var body := EvalAst(s.(whileCounter := n + 1), e.body, fuel);
    if e.DoLoopStatement? {
      assert EvalExpression(s, e, fuel) == EvalDoLoop(s, e, fuel);
      assert EvalDoLoop(s, e, fuel) == LoopOutcome(body, n);
    } else {
      assert EvalExpression(s, e, fuel) == EvalDoPlusLoop(s, e, fuel);
      assert EvalDoPlusLoop(s, e, fuel) == PlusLoopOutcome(body, n);
    }
    if body.result.Ok? {
      LoopLinesHaveNoMarker(body.result.value, n);
    }
  }

  /**
   * `DO DO i LOOP LOOP`: the `i` loads the index of the inner loop, whose
   * id is the outer loop's plus one; the outer loop's index is never
   * loaded and no marker is left.
   */
  lemma InnermostLoopBindsIndex(s: Session, fuel: nat)
    requires "i" !in s.userDefinedFunctions
    requires "i" in s.predefinedFunctions && s.predefinedFunctions["i"] == Some([IndexMarker])
    ensures var inner := DoLoopStatement(AbstractSyntaxTree([Literal("i")]));
      var o := EvalExpression(s, DoLoopStatement(AbstractSyntaxTree([inner])), fuel);
      var n := s.whileCounter;
      o.result.Ok? && IndexMarker !in o.result.value &&
      (forall m :: IndexLoad(m) in o.result.value <==> m == n + 1) &&
      o.session.whileCounter == n + 2
  {
    var n := s.whileCounter;
    var inner := DoLoopStatement(AbstractSyntaxTree([Literal("i")]));
    var o := EvalExpression(s, DoLoopStatement(AbstractSyntaxTree([inner])), fuel);
    NestedLoopOutput(s, fuel);
    var innerLines := DoLoopLines([IndexMarker], n + 1);
    LoopLinesHaveNoMarker([IndexMarker], n + 1);
    MarkerFreeRewriteIsIdentity(innerLines, n);
    LoopLinesHaveNoMarker(innerLines, n);
    assert o.result.value == DoLoopLines(innerLines, n);
    forall m
      ensures IndexLoad(m) in o.result.value <==> m == n + 1
    {
      NestedIndexLoads(n, m);
    }
  }

  /** What `DO DO i LOOP LOOP` lowers to: the inner loop's lines become the outer loop's body. */
  lemma NestedLoopOutput(s: Session, fuel: nat)
    requires "i" !in s.userDefinedFunctions
    requires "i" in s.predefinedFunctions && s.predefinedFunctions["i"] == Some([IndexMarker])
    ensures var inner := DoLoopStatement(AbstractSyntaxTree([Literal("i")]));
      var n := s.whileCounter;
      EvalExpression(s, DoLoopStatement(AbstractSyntaxTree([inner])), fuel) ==
        Outcome(Ok(DoLoopLines(DoLoopLines([IndexMarker], n + 1), n)), s.(whileCounter := n + 2))
  {
    var n := s.whileCounter;
    var i := Literal("i");
    var inner := DoLoopStatement(AbstractSyntaxTree([i]));
    var outer := DoLoopStatement(AbstractSyntaxTree([inner]));
    var s1 := s.(whileCounter := n + 1);
    var s2 := s1.(whileCounter := n + 2);
    LowerFixesLowered("i");
    assert EvalExpression(s2, i, fuel) == Outcome(Ok([IndexMarker]), s2);
    EvalSingle(s2, i, fuel);
    assert EvalAst(s2, inner.body, fuel) == Outcome(Ok([IndexMarker]), s2);
    var innerLines := DoLoopLines([IndexMarker], n + 1);
    assert EvalExpression(s1, inner, fuel) == EvalDoLoop(s1, inner, fuel);
    assert EvalDoLoop(s1, inner, fuel) == LoopOutcome(EvalAst(s2, inner.body, fuel), n + 1);
    EvalSingle(s1, inner, fuel);
    assert EvalAst(s1, outer.body, fuel) == Outcome(Ok(innerLines), s2);
    assert EvalExpression(s, outer, fuel) == EvalDoLoop(s, outer, fuel);
    assert EvalDoLoop(s, outer, fuel) == LoopOutcome(EvalAst(s1, outer.body, fuel), n);
  }

  /** In loop `n` around loop `n + 1` around `i`, only the inner loop's index is loaded. */
  lemma NestedIndexLoads(n: nat, m: nat)
    ensures IndexLoad(m) in DoLoopLines(DoLoopLines([IndexMarker], n + 1), n) <==> m == n + 1
  {
    var innerLines := DoLoopLines([IndexMarker], n + 1);
    LoopLinesHaveNoMarker([IndexMarker], n + 1);
    MarkerFreeRewriteIsIdentity(innerLines, n);
    LoopIndexLoadsComeFromBody(innerLines, n, m);
    LoopIndexLoadsComeFromBody([IndexMarker], n + 1, m);
    assert RewriteIndex([IndexMarker], n + 1) == [IndexLoad(n + 1)];
    IndexLoadInjective(m, n + 1);
  }

  // ---------------------------------------------------------------------
  // Worked examples
  // ---------------------------------------------------------------------

  /** `1 2 +` from a new translator. */
  lemma AdditionExample()
    ensures EvalAst(InitialSession(), AbstractSyntaxTree([Number(1), Number(2), Operator(Plus)]), 0).result
      == Ok([Op("pushi 1"), Op("pushi 2"), Op("add")])
  {
    var s := InitialSession();
    assert NatToString(1) == "1" && NatToString(2) == "2";
    assert IntToString(1) == "1" && IntToString(2) == "2";
    assert "pushi " + "1" == "pushi 1" && "pushi " + "2" == "pushi 2";
    assert VisitNumber(1) == [Op("pushi 1")] && VisitNumber(2) == [Op("pushi 2")];
    assert EvalExpression(s, Number(1), 0) == Outcome(Ok([Op("pushi 1")]), s);
    assert EvalExpression(s, Number(2), 0) == Outcome(Ok([Op("pushi 2")]), s);
    assert EvalExpression(s, Operator(Plus), 0) == Outcome(Ok([Op("add")]), s);
    EvalSingle(s, Operator(Plus), 0);
    EvalCons(s, Number(2), [Operator(Plus)], 0);
    EvalCons(s, Number(1), [Number(2), Operator(Plus)], 0);
    assert [Op("pushi 2")] + [Op("add")] == [Op("pushi 2"), Op("add")];
    assert [Op("pushi 1")] + [Op("pushi 2"), Op("add")] == [Op("pushi 1"), Op("pushi 2"), Op("add")];
    assert [Number(1)] + ([Number(2)] + [Operator(Plus)]) == [Number(1), Number(2), Operator(Plus)];
  }

  /** `: two 2 ; two` from a new translator: the definition emits nothing, the use expands in place. */
  lemma DefinitionExample()
    ensures var ast := AbstractSyntaxTree([Word("two", AbstractSyntaxTree([Number(2)])), Literal("two")]);
      EvalAst(InitialSession(), ast, 1).result
        == Ok([Define(FunctionStart("two", 0)), Op("pushi 2"), Define(FunctionEnd("two", 0))])
  {
    LowerFixesLowered("two");
    assert NatToString(2) == "2" && IntToString(2) == "2";
    assert "pushi " + "2" == "pushi 2";
    assert VisitNumber(2) == [Op("pushi 2")];
    var word := Word("two", AbstractSyntaxTree([Number(2)]));
    var use := Literal("two");
    var s := InitialSession().(userDefinedFunctions := map["two" := AbstractSyntaxTree([Number(2)])]);
    assert EvalExpression(InitialSession(), word, 1) == Outcome(Ok([]), s);
    var inside := s.(predefinedFunctions := BindExitAndRecurse(s.predefinedFunctions, "two", 0), functionCounter := 1);
    EvalSingle(inside, Number(2), 0);
    assert EvalExpression(inside, Number(2), 0) == Outcome(Ok([Op("pushi 2")]), inside);
    assert Lower("two") == "two";
    assert [Define(FunctionStart("two", 0))] + [Op("pushi 2")] + [Define(FunctionEnd("two", 0))]
      == [Define(FunctionStart("two", 0)), Op("pushi 2"), Define(FunctionEnd("two", 0))];
    assert EvalExpression(s, use, 1) == EvalLiteral(s, use, 1);
    assert EvalExpression(s, use, 1).result
      == Ok([Define(FunctionStart("two", 0)), Op("pushi 2"), Define(FunctionEnd("two", 0))]);
    EvalSingle(s, use, 1);
    EvalCons(InitialSession(), word, [use], 1);
    ContinueNothing(EvalSeq(s, [use], 1));
    assert [word] + [use] == [word, use];
  }
}
