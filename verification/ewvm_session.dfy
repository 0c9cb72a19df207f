/**
 * How a translation changes the generator's fields: the counters only
 * grow, a registered word is never replaced, the primitives other than
 * `exit` and `recurse` are never touched, and a translation that
 * succeeds leaves every lookup of the primitive table as it found it
 * (the word expansions put `exit` and `recurse` back, to `None` when
 * they were absent).
 */
module EwvmSession {
  import opened Common
  import opened Syntax
  import opened EwvmLowering
  import opened EwvmSpec

  predicate CountersAdvance(s: Session, t: Session) {
    s.ifCounter <= t.ifCounter && s.whileCounter <= t.whileCounter && s.functionCounter <= t.functionCounter
  }

  /** Every word registered in `s` is still registered, with the same body. */
  ghost predicate UserWordsKept(s: Session, t: Session) {
    forall name | name in s.userDefinedFunctions ::
      name in t.userDefinedFunctions && t.userDefinedFunctions[name] == s.userDefinedFunctions[name]
  }

  /** Keys other than `exit` and `recurse` are present and bound alike in both tables. */
  ghost predicate OtherPrimitivesKept(a: map<string, Option<seq<Line>>>, b: map<string, Option<seq<Line>>>) {
    forall key | key != "exit" && key != "recurse" ::
      (key in a <==> key in b) && (key in a ==> a[key] == b[key])
  }

  /** `get` reads the same from both tables, for every key. */
  ghost predicate SameLookups(a: map<string, Option<seq<Line>>>, b: map<string, Option<seq<Line>>>) {
    forall key :: Get(a, key) == Get(b, key)
  }

  /** What holds between the session before a visitor and the session after it, whatever it returned. */
  ghost predicate Advances(s: Session, t: Session) {
    CountersAdvance(s, t) && UserWordsKept(s, t) && OtherPrimitivesKept(s.predefinedFunctions, t.predefinedFunctions)
  }

  /** The visitor's outcome, seen from the session it started in. */
  ghost predicate Evolves(s: Session, o: Outcome) {
    Advances(s, o.session) &&
    (o.result.Ok? ==> SameLookups(s.predefinedFunctions, o.session.predefinedFunctions))
  }

  lemma AdvancesTransitive(s: Session, m: Session, t: Session)
    requires Advances(s, m) && Advances(m, t)
    ensures Advances(s, t)
  {
  }

  /** Restoring after a binding gives back every lookup of the table the binding started from. */
  lemma RestoreUndoesBind(table: map<string, Option<seq<Line>>>, value: string, k: nat, after: map<string, Option<seq<Line>>>)
    requires SameLookups(BindExitAndRecurse(table, value, k), after)
    ensures SameLookups(table, RestoreExitAndRecurse(after, table))
  {
    var restored := RestoreExitAndRecurse(after, table);
    forall key
      ensures Get(table, key) == Get(restored, key)
    {
      if key != "exit" && key != "recurse" {
        assert Get(BindExitAndRecurse(table, value, k), key) == Get(table, key);
        assert Get(after, key) == Get(restored, key);
      }
    }
  }

  lemma {:induction false} ExpressionEvolves(s: Session, e: Expression, fuel: nat)
    ensures Evolves(s, EvalExpression(s, e, fuel))
    decreases fuel, e, 2
  {
    match e
    case DoLoopStatement(body) =>
      LoopBodyEvolves(s, body, fuel);
      assert EvalExpression(s, e, fuel) == EvalDoLoop(s, e, fuel);
      assert EvalDoLoop(s, e, fuel).session == EvalAst(s.(whileCounter := s.whileCounter + 1), body, fuel).session;
    case DoPlusLoopStatement(body) =>
      LoopBodyEvolves(s, body, fuel);
      assert EvalExpression(s, e, fuel) == EvalDoPlusLoop(s, e, fuel);
      assert EvalDoPlusLoop(s, e, fuel).session == EvalAst(s.(whileCounter := s.whileCounter + 1), body, fuel).session;
    case IfStatement(_, _) => IfEvolves(s, e, fuel);
    case Literal(_) => LiteralEvolves(s, e, fuel);
    case Word(_, _) =>
    case _ =>
      assert EvalExpression(s, e, fuel).session == s;
      InPlaceEvolves(s, EvalExpression(s, e, fuel));
  }

  /** A visitor that leaves the session as it found it. */
  lemma InPlaceEvolves(s: Session, o: Outcome)
    requires o.session == s
    ensures Evolves(s, o)
  {
  }

  lemma {:induction false} SeqEvolves(s: Session, es: seq<Expression>, fuel: nat)
    ensures Evolves(s, EvalSeq(s, es, fuel))
    decreases fuel, es, 0
  {
    if es != [] {
      var first := EvalExpression(s, es[0], fuel);
      ExpressionEvolves(s, es[0], fuel);
      if first.result.Ok? {
        SeqEvolves(first.session, es[1..], fuel);
        AdvancesTransitive(s, first.session, EvalSeq(first.session, es[1..], fuel).session);
      }
    }
  }

  /** Both loop visitors: a fresh loop id, then the body. */
  lemma {:induction false} LoopBodyEvolves(s: Session, body: AbstractSyntaxTree, fuel: nat)
    ensures Evolves(s, EvalAst(s.(whileCounter := s.whileCounter + 1), body, fuel))
    decreases fuel, body, 1
  {
    var inside := s.(whileCounter := s.whileCounter + 1);
    SeqEvolves(inside, body.expressions, fuel);
    AdvancesTransitive(s, inside, EvalAst(inside, body, fuel).session);
  }

  lemma {:induction false} IfEvolves(s: Session, ifStatement: Expression, fuel: nat)
    requires ifStatement.IfStatement?
    ensures Evolves(s, EvalIf(s, ifStatement, fuel))
    decreases fuel, ifStatement, 1
  {
    var inside := s.(ifCounter := s.ifCounter + 1);
    SeqEvolves(inside, ifStatement.ifTrue.expressions, fuel);
    var ifTrue := EvalAst(inside, ifStatement.ifTrue, fuel);
    if ifTrue.result.Ok? && ifStatement.WithElse() {
      SeqEvolves(ifTrue.session, ifStatement.ifFalse.value.expressions, fuel);
      AdvancesTransitive(inside, ifTrue.session, EvalAst(ifTrue.session, ifStatement.ifFalse.value, fuel).session);
    }
  }

  lemma {:induction false} LiteralEvolves(s: Session, literal: Expression, fuel: nat)
    requires literal.Literal?
    ensures Evolves(s, EvalLiteral(s, literal, fuel))
    decreases fuel, literal, 1
  {
    var value := Lower(literal.content);
    if value in s.userDefinedFunctions && fuel > 0 {
      var k := s.functionCounter;
      var inside := s.(predefinedFunctions := BindExitAndRecurse(s.predefinedFunctions, value, k),
                       functionCounter := k + 1);
      var body := EvalAst(inside, s.userDefinedFunctions[value], fuel - 1);
      assert Evolves(inside, body) by {
        SeqEvolves(inside, s.userDefinedFunctions[value].expressions, fuel - 1);
      }
      ExpansionEvolves(body, s, value);
      assert EvalLiteral(s, literal, fuel) == ExpansionOutcome(body, s.predefinedFunctions, value, k);
    }
  }

  /** An expansion, seen from the session before `exit` and `recurse` were bound. */
  lemma ExpansionEvolves(body: Outcome, s: Session, value: string)
    requires Evolves(s.(predefinedFunctions := BindExitAndRecurse(s.predefinedFunctions, value, s.functionCounter),
                        functionCounter := s.functionCounter + 1), body)
    ensures Evolves(s, ExpansionOutcome(body, s.predefinedFunctions, value, s.functionCounter))
  {
    if body.result.Ok? {
      RestoreUndoesBind(s.predefinedFunctions, value, s.functionCounter, body.session.predefinedFunctions);
    }
  }

  /** Evaluation from a session, lifted to whole trees: the same facts hold. */
  lemma AstEvolves(s: Session, ast: AbstractSyntaxTree, fuel: nat)
    ensures Evolves(s, EvalAst(s, ast, fuel))
  {
    SeqEvolves(s, ast.expressions, fuel);
  }
}
