/**
 * What the EWVM code generator computes, as functions of the session
 * state: each visitor takes the session before the call and gives the
 * lines it returns (or the exception it raises) together with the
 * session after the call. On an exception the session is whatever the
 * generator had changed up to the point of the raise; nothing is rolled
 * back.
 *
 * Word expansion in the generator recurses without bound when a word
 * names itself; `fuel` bounds the depth of nested expansions and running
 * out of it stands for Python's `RecursionError`.
 */
module EwvmSpec {
  import opened Common
  import opened Syntax
  import opened EwvmLowering

  /** The translator's fields. */
  datatype Session = Session(
    predefinedFunctions: map<string, Option<seq<Line>>>,
    userDefinedFunctions: map<string, AbstractSyntaxTree>,
    ifCounter: nat,
    whileCounter: nat,
    functionCounter: nat)

  /** The primitive table a new translator starts with. */
  function InitialPredefined(): map<string, Option<seq<Line>>> {
    map[
      "." := Some([Op("writei")]),
      "emit" := Some([Op("writechr")]),
      "space" := Some([Op("pushi 32"), Op("writechr")]),
      "cr" := Some([Op("pushi 10"), Op("writechr")]),
      "swap" := Some([Op("swap")]),
      "dup" := Some([Op("dup 1")]),
      "2dup" := Some([Op("pushsp"), Op("load -1"), Op("pushsp"), Op("load -1")]),
      "drop" := Some([Op("pop 1")]),
      "i" := Some([IndexMarker])
    ]
  }

  function InitialSession(): Session {
    Session(InitialPredefined(), map[], 0, 0, 0)
  }

  /** `table.get(key, None)`: an absent key and a key holding `None` read alike. */
  function Get(table: map<string, Option<seq<Line>>>, key: string): Option<seq<Line>> {
    if key in table then table[key] else None
  }

  /** What a visitor returned or raised, and the session afterwards. */
  datatype Outcome = Outcome(result: Result<seq<Line>, Failure>, session: Session)

  /** Prepends lines already produced to a later outcome, unless that outcome is an exception. */
  function Continue(lines: seq<Line>, o: Outcome): Outcome {
    if o.result.Err? then o else Outcome(Ok(lines + o.result.value), o.session)
  }

  /** Nothing produced before: the outcome is unchanged. */
  lemma ContinueNothing(o: Outcome)
    ensures Continue([], o) == o
  {
    if o.result.Ok? {
      assert [] + o.result.value == o.result.value;
    }
  }

  /** Lines produced in two steps prepend as their concatenation. */
  lemma ContinueContinue(a: seq<Line>, b: seq<Line>, o: Outcome)
    ensures Continue(a, Continue(b, o)) == Continue(a + b, o)
  {
    if o.result.Ok? {
      assert a + (b + o.result.value) == (a + b) + o.result.value;
    }
  }

  /** `expr.evaluate(translator)`: one visitor per node kind. */
  function EvalExpression(s: Session, e: Expression, fuel: nat): Outcome
    decreases fuel, e, 2
  {
    match e
    case Number(n) => Outcome(Ok(VisitNumber(n)), s)
    case Operator(t) => Outcome(VisitOperator(t), s)
    case ComparisonOperator(t) => Outcome(Ok(VisitComparisonOperator(t)), s)
    case Word(_, _) => EvalWord(s, e)
    case DoLoopStatement(_) => EvalDoLoop(s, e, fuel)
    case DoPlusLoopStatement(_) => EvalDoPlusLoop(s, e, fuel)
    case IfStatement(_, _) => EvalIf(s, e, fuel)
    case Literal(_) => EvalLiteral(s, e, fuel)
    case PrintString(c) => Outcome(Ok(PrintStringLines(c)), s)
    case CharFunction(c) => Outcome(Ok(CharFunctionLines(c)), s)
    case BeginUntilStatement(_) => Outcome(Err(Unsupported("BeginUntilStatement")), s)
    case BeginAgainStatement(_) => Outcome(Err(Unsupported("BeginAgainStatement")), s)
    case VariableDeclaration(_) => Outcome(Err(Unsupported("VariableDeclaration")), s)
    case ConstantDeclaration(_) => Outcome(Err(Unsupported("ConstantDeclaration")), s)
    case StoreVariable(_) => Outcome(Err(Unsupported("StoreVariable")), s)
    case FetchVariable(_) => Outcome(Err(Unsupported("FetchVariable")), s)
  }

  /** `visit_print_string`: the text follows `pushs ` verbatim. */
  function PrintStringLines(content: string): seq<Line> {
    [Op("pushs " + content), Op("writes")]
  }

  /** `visit_char_function`, reading the node's `char_code` field. */
  function CharFunctionLines(code: int): seq<Line> {
    [Op("pushs " + IntToString(code)), Op("chrcode")]
  }

  /** `translate`: the expressions' lines in order; the first exception stops the walk. */
  function EvalAst(s: Session, ast: AbstractSyntaxTree, fuel: nat): Outcome
    decreases fuel, ast, 0
  {
    EvalSeq(s, ast.expressions, fuel)
  }

  function EvalSeq(s: Session, es: seq<Expression>, fuel: nat): Outcome
    decreases fuel, es, 0
  {
    if es == [] then Outcome(Ok([]), s)
    else
      var first := EvalExpression(s, es[0], fuel);
      if first.result.Err? then first
      else Continue(first.result.value, EvalSeq(first.session, es[1..], fuel))
  }

  /** A tree of one expression translates as that expression. */
  lemma EvalSingle(s: Session, e: Expression, fuel: nat)
    ensures EvalSeq(s, [e], fuel) == EvalExpression(s, e, fuel)
  {
    assert [e][0] == e && [e][1..] == [];
    var first := EvalExpression(s, e, fuel);
    if first.result.Ok? {
      assert first.result.value + [] == first.result.value;
    }
  }

  /** The first expression's outcome, then the rest from the session it left. */
  lemma EvalCons(s: Session, e: Expression, rest: seq<Expression>, fuel: nat)
    ensures EvalSeq(s, [e] + rest, fuel) ==
      var first := EvalExpression(s, e, fuel);
      if first.result.Err? then first else Continue(first.result.value, EvalSeq(first.session, rest, fuel))
  {
    assert ([e] + rest)[0] == e && ([e] + rest)[1..] == rest;
  }

  /** `visit_function` (the visitor a `Word` reaches): register the body under the name; emit nothing. */
  function EvalWord(s: Session, word: Expression): Outcome
    requires word.Word?
  {
    if word.name in s.userDefinedFunctions then
      Outcome(Err(TranslationError("Function " + word.name + " already defined")), s)
    else
      Outcome(Ok([]), s.(userDefinedFunctions := s.userDefinedFunctions[word.name := word.ast]))
  }

  /** `visit_do_loop_statement`: take a fresh loop id, lower the body, then wrap it. */
  function EvalDoLoop(s: Session, doLoop: Expression, fuel: nat): Outcome
    requires doLoop.DoLoopStatement?
    decreases fuel, doLoop, 1
  {
    var n := s.whileCounter;
    LoopOutcome(EvalAst(s.(whileCounter := n + 1), doLoop.body, fuel), n)
  }

  /** `visit_do_plus_loop_statement`: as the plain loop, with the +LOOP pieces. */
  function EvalDoPlusLoop(s: Session, doLoop: Expression, fuel: nat): Outcome
    requires doLoop.DoPlusLoopStatement?
    decreases fuel, doLoop, 1
  {
    var n := s.whileCounter;
    PlusLoopOutcome(EvalAst(s.(whileCounter := n + 1), doLoop.body, fuel), n)
  }

  /** Loop `n` around its lowered body; an exception from the body passes through. */
  function LoopOutcome(body: Outcome, n: nat): Outcome {
    if body.result.Err? then body
    else Outcome(Ok(DoLoopLines(body.result.value, n)), body.session)
  }

  /** +LOOP `n` around its lowered body; an exception from the body passes through. */
  function PlusLoopOutcome(body: Outcome, n: nat): Outcome {
    if body.result.Err? then body
    else Outcome(Ok(DoPlusLoopLines(body.result.value, n)), body.session)
  }

  /** `visit_if_statement`: take a fresh if id, then lower the branches in order. */
  function EvalIf(s: Session, ifStatement: Expression, fuel: nat): Outcome
    requires ifStatement.IfStatement?
    decreases fuel, ifStatement, 1
  {
    var n := s.ifCounter;
    var ifTrue := EvalAst(s.(ifCounter := n + 1), ifStatement.ifTrue, fuel);
    if ifTrue.result.Err? then ifTrue
    else if !ifStatement.WithElse() then
      Outcome(Ok([Jz(EndIf(n))] + ifTrue.result.value + [Define(EndIf(n))]), ifTrue.session)
    else
      var ifFalse := EvalAst(ifTrue.session, ifStatement.ifFalse.value, fuel);
      if ifFalse.result.Err? then ifFalse
      else Outcome(Ok([Jz(Else(n))] + ifTrue.result.value + [Jump(EndIf(n)), Define(Else(n))]
                      + ifFalse.result.value + [Define(EndIf(n))]),
                   ifFalse.session)
  }

  /**
   * Expansion `k` of word `value` around its lowered body; afterwards
   * `exit` and `recurse` are put back as they were in `saved`. An
   * exception from the body passes through, leaving them bound.
   */
  function ExpansionOutcome(body: Outcome, saved: map<string, Option<seq<Line>>>, value: string, k: nat): Outcome {
    if body.result.Err? then body
    else Outcome(Ok([Define(FunctionStart(value, k))] + body.result.value + [Define(FunctionEnd(value, k))]),
                 body.session.(predefinedFunctions := RestoreExitAndRecurse(body.session.predefinedFunctions, saved)))
  }

  /** The table while word `value` is expanded with counter `k`: `exit` and `recurse` jump to its labels. */
  function BindExitAndRecurse(table: map<string, Option<seq<Line>>>, value: string, k: nat): map<string, Option<seq<Line>>> {
    table["exit" := Some([Jump(FunctionEnd(value, k))])]["recurse" := Some([Jump(FunctionStart(value, k))])]
  }

  /** The table after the expansion: both keys put back to what `get` read before it. */
  function RestoreExitAndRecurse(table: map<string, Option<seq<Line>>>, before: map<string, Option<seq<Line>>>): map<string, Option<seq<Line>>> {
    table["recurse" := Get(before, "recurse")]["exit" := Get(before, "exit")]
  }

  /** `visit_literal`: a user word first, then a primitive, else an error. */
  function EvalLiteral(s: Session, literal: Expression, fuel: nat): Outcome
    requires literal.Literal?
    decreases fuel, literal, 1
  {
    var value := Lower(literal.content);
    if value in s.userDefinedFunctions then
      if fuel == 0 then Outcome(Err(RecursionLimit), s)
      else
        var k := s.functionCounter;
        var inside := s.(predefinedFunctions := BindExitAndRecurse(s.predefinedFunctions, value, k),
                         functionCounter := k + 1);
        ExpansionOutcome(EvalAst(inside, s.userDefinedFunctions[value], fuel - 1), s.predefinedFunctions, value, k)
    else if value in s.predefinedFunctions then
      match s.predefinedFunctions[value]
      case Some(lines) => Outcome(Ok(lines), s)
      case None => Outcome(Err(TypeError), s)
    else Outcome(Err(TranslationError("Literal " + value + " not found")), s)
  }
}
