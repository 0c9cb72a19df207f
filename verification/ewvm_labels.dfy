/**
 * Labels in the generated program. Each `if`, loop and word expansion
 * takes its label id from its own counter before lowering what it
 * contains, so every label a successful translation defines carries an id
 * the translation itself handed out, and no label is defined twice.
 * (Distinct labels can still render to the same text when word names end
 * in digits; see `FunctionLabelsCanCollide`.)
 */
module EwvmLabels {
  import opened Common
  import opened Syntax
  import opened EwvmLowering
  import opened EwvmSpec
  import opened EwvmSession

  /** No label is defined twice. */
  predicate UniqueDefinitions(lines: seq<Line>) {
    forall i, j | 0 <= i < j < |lines| && lines[i].Define? && lines[j].Define? ::
      lines[i].defined != lines[j].defined
  }

  /** No label is defined in both `a` and `b`. */
  predicate Disjoint(a: seq<Line>, b: seq<Line>) {
    forall x, y | x in a && y in b && x.Define? && y.Define? :: x.defined != y.defined
  }

  /** The label's id was handed out by its family's counter between session `s` and session `t`. */
  predicate Fresh(l: Label, s: Session, t: Session) {
    if l.IsIfLabel() then s.ifCounter <= l.n < t.ifCounter
    else if l.IsLoopLabel() then s.whileCounter <= l.n < t.whileCounter
    else s.functionCounter <= l.k < t.functionCounter
  }

  predicate DefinedWithin(lines: seq<Line>, s: Session, t: Session) {
    forall line | line in lines && line.Define? :: Fresh(line.defined, s, t)
  }

  /** No entry of the primitive table defines a label. */
  ghost predicate TableDefinesNothing(table: map<string, Option<seq<Line>>>) {
    forall key, line | key in table && table[key].Some? && line in table[key].value :: !line.Define?
  }

  /** A successful outcome defines each label once, each with an id taken during the call. */
  ghost predicate WellLabelled(s: Session, o: Outcome) {
    o.result.Ok? ==> UniqueDefinitions(o.result.value) && DefinedWithin(o.result.value, s, o.session)
  }

  // ---------------------------------------------------------------------
  // Combining pieces
  // ---------------------------------------------------------------------

  lemma UniqueAppend(a: seq<Line>, b: seq<Line>)
    requires UniqueDefinitions(a) && UniqueDefinitions(b) && Disjoint(a, b)
    ensures UniqueDefinitions(a + b)
  {
    var c := a + b;
    forall i, j | 0 <= i < j < |c| && c[i].Define? && c[j].Define?
      ensures c[i].defined != c[j].defined
    {
      if j < |a| {
        assert c[i] == a[i] && c[j] == a[j];
      } else if i >= |a| {
        assert c[i] == b[i - |a|] && c[j] == b[j - |a|];
      } else {
        assert c[i] in a && c[j] in b;
      }
    }
  }

  /** Ids taken in two successive stretches of the counters never meet. */
  lemma Separate(a: seq<Line>, b: seq<Line>, s1: Session, t1: Session, s2: Session, t2: Session)
    requires DefinedWithin(a, s1, t1) && DefinedWithin(b, s2, t2)
    requires CountersAdvance(t1, s2) || CountersAdvance(t2, s1)
    ensures Disjoint(a, b)
  {
  }

  lemma Widen(lines: seq<Line>, s0: Session, s: Session, t: Session, t0: Session)
    requires DefinedWithin(lines, s, t) && CountersAdvance(s0, s) && CountersAdvance(t, t0)
    ensures DefinedWithin(lines, s0, t0)
  {
  }

  lemma SameLookupsKeepTableClean(a: map<string, Option<seq<Line>>>, b: map<string, Option<seq<Line>>>)
    requires TableDefinesNothing(a) && SameLookups(a, b)
    ensures TableDefinesNothing(b)
  {
    forall key | key in b && b[key].Some?
      ensures key in a && a[key] == b[key]
    {
      assert Get(a, key) == Get(b, key);
    }
  }

  /** The rewrite of `i` touches no label definition. */
  lemma RewriteKeepsLabels(body: seq<Line>, n: nat, s: Session, t: Session)
    requires UniqueDefinitions(body) && DefinedWithin(body, s, t)
    ensures UniqueDefinitions(RewriteIndex(body, n)) && DefinedWithin(RewriteIndex(body, n), s, t)
  {
    var r := RewriteIndex(body, n);
    assert forall k :: 0 <= k < |r| && r[k].Define? ==> r[k] == body[k];
    forall line | line in r && line.Define?
      ensures Fresh(line.defined, s, t)
    {
      var k :| 0 <= k < |r| && r[k] == line;
      assert body[k] in body;
    }
  }

  // ---------------------------------------------------------------------
  // The fixed pieces
  // ---------------------------------------------------------------------

  /** A loop's own lines define its labels once each, all numbered `n`. */
  lemma LoopPiecesLabels(n: nat, s: Session, inside: Session)
    requires s.whileCounter == n && inside == s.(whileCounter := n + 1)
    ensures UniqueDefinitions(LoopInitialization(n) + LoopCondition(n)) && UniqueDefinitions(LoopEnd(n))
    ensures Disjoint(LoopInitialization(n) + LoopCondition(n), LoopEnd(n))
    ensures DefinedWithin(LoopInitialization(n) + LoopCondition(n), s, inside)
    ensures DefinedWithin(LoopEnd(n), s, inside)
  {
    var head := LoopInitialization(n) + LoopCondition(n);
    assert forall k | 0 <= k < |head| && head[k].Define? :: k == 6;
    var end := LoopEnd(n);
    assert forall k | 0 <= k < |end| && end[k].Define? :: k == 8;
  }

  lemma PlusLoopPiecesLabels(n: nat, s: Session, inside: Session)
    requires s.whileCounter == n && inside == s.(whileCounter := n + 1)
    ensures UniqueDefinitions(PlusLoopInitialization(n) + PlusLoopCondition(n)) && UniqueDefinitions(PlusLoopEnd(n))
    ensures Disjoint(PlusLoopInitialization(n) + PlusLoopCondition(n), PlusLoopEnd(n))
    ensures DefinedWithin(PlusLoopInitialization(n) + PlusLoopCondition(n), s, inside)
    ensures DefinedWithin(PlusLoopEnd(n), s, inside)
  {
    PlusHeadUnique(n);
    PlusEndApart(n);
    InitializationsOwned(n);
    PlusConditionOwned(n);
    EndsOwned(n);
    OwnedWithin(PlusLoopInitialization(n) + PlusLoopCondition(n), n, s, inside);
    OwnedWithin(PlusLoopEnd(n), n, s, inside);
  }

  lemma PlusHeadUnique(n: nat)
    ensures UniqueDefinitions(PlusLoopInitialization(n) + PlusLoopCondition(n))
  {
    var init := PlusLoopInitialization(n);
    var cond := PlusLoopCondition(n);
    assert forall k | 0 <= k < |init| :: !init[k].Define?;
    assert forall k | 0 <= k < |cond| && cond[k].Define? :: k == 0 || k == 12 || k == 16;
    UniqueAppend(init, cond);
  }

  lemma PlusEndApart(n: nat)
    ensures UniqueDefinitions(PlusLoopEnd(n))
    ensures Disjoint(PlusLoopInitialization(n) + PlusLoopCondition(n), PlusLoopEnd(n))
  {
    var head := PlusLoopInitialization(n) + PlusLoopCondition(n);
    var end := PlusLoopEnd(n);
    assert forall k | 0 <= k < |head| :: head[k] != Define(EndWhile(n));
    assert forall k | 0 <= k < |end| && end[k].Define? :: k == 7;
  }

  /** Lines owned by loop `n` define only labels with the id that loop took. */
  lemma OwnedWithin(lines: seq<Line>, n: nat, s: Session, inside: Session)
    requires OwnedByLoop(lines, n)
    requires s.whileCounter == n && inside == s.(whileCounter := n + 1)
    ensures DefinedWithin(lines, s, inside)
  {
    forall line | line in lines && line.Define?
      ensures Fresh(line.defined, s, inside)
    {
      assert LineOwnedByLoop(line, n);
    }
  }

  /** A construct's own lines around a body whose labels were all taken after the construct's own id. */
  lemma Wrap(head: seq<Line>, body: seq<Line>, end: seq<Line>, s: Session, inside: Session, t: Session)
    requires UniqueDefinitions(head) && UniqueDefinitions(end) && Disjoint(head, end)
    requires DefinedWithin(head, s, inside) && DefinedWithin(end, s, inside)
    requires UniqueDefinitions(body) && DefinedWithin(body, inside, t)
    requires CountersAdvance(s, inside) && CountersAdvance(inside, t)
    ensures UniqueDefinitions(head + body + end) && DefinedWithin(head + body + end, s, t)
  {
    Separate(head, body, s, inside, inside, t);
    UniqueAppend(head, body);
    Separate(body, end, inside, t, s, inside);
    UniqueAppend(head + body, end);
    Widen(head, s, s, inside, t);
    Widen(body, s, inside, t, t);
    Widen(end, s, s, inside, t);
  }

  /** A plain loop around a body whose labels were taken inside it. */
  lemma DoLoopLinesLabels(body: seq<Line>, n: nat, s: Session, inside: Session, t: Session)
    requires s.whileCounter == n && inside == s.(whileCounter := n + 1) && CountersAdvance(inside, t)
    requires UniqueDefinitions(body) && DefinedWithin(body, inside, t)
    ensures UniqueDefinitions(DoLoopLines(body, n)) && DefinedWithin(DoLoopLines(body, n), s, t)
  {
    RewriteKeepsLabels(body, n, inside, t);
    LoopPiecesLabels(n, s, inside);
    Wrap(LoopInitialization(n) + LoopCondition(n), RewriteIndex(body, n), LoopEnd(n), s, inside, t);
  }

  /** A +LOOP around a body whose labels were taken inside it. */
  lemma DoPlusLoopLinesLabels(body: seq<Line>, n: nat, s: Session, inside: Session, t: Session)
    requires s.whileCounter == n && inside == s.(whileCounter := n + 1) && CountersAdvance(inside, t)
    requires UniqueDefinitions(body) && DefinedWithin(body, inside, t)
    ensures UniqueDefinitions(DoPlusLoopLines(body, n)) && DefinedWithin(DoPlusLoopLines(body, n), s, t)
  {
    RewriteKeepsLabels(body, n, inside, t);
    PlusLoopPiecesLabels(n, s, inside);
    Wrap(PlusLoopInitialization(n) + PlusLoopCondition(n), RewriteIndex(body, n), PlusLoopEnd(n), s, inside, t);
  }

  // ---------------------------------------------------------------------
  // The visitors
  // ---------------------------------------------------------------------

  lemma {:induction false} ExpressionLabels(s: Session, e: Expression, fuel: nat)
    requires TableDefinesNothing(s.predefinedFunctions)
    ensures WellLabelled(s, EvalExpression(s, e, fuel))
    decreases fuel, e, 2
  {
    match e
    case DoLoopStatement(_) => LoopLabels(s, e, fuel);
    case DoPlusLoopStatement(_) => PlusLoopLabels(s, e, fuel);
    case IfStatement(_, _) => IfLabels(s, e, fuel);
    case Literal(_) => LiteralLabels(s, e, fuel);
    case _ =>
  }

  lemma {:induction false} SeqLabels(s: Session, es: seq<Expression>, fuel: nat)
    requires TableDefinesNothing(s.predefinedFunctions)
    ensures WellLabelled(s, EvalSeq(s, es, fuel))
    decreases fuel, es, 0
  {
    if es != [] {
      var first := EvalExpression(s, es[0], fuel);
      ExpressionLabels(s, es[0], fuel);
      ExpressionEvolves(s, es[0], fuel);
      if first.result.Ok? {
        var m := first.session;
        SameLookupsKeepTableClean(s.predefinedFunctions, m.predefinedFunctions);
        var rest := EvalSeq(m, es[1..], fuel);
        SeqLabels(m, es[1..], fuel);
        SeqEvolves(m, es[1..], fuel);
        if rest.result.Ok? {
          Separate(first.result.value, rest.result.value, s, m, m, rest.session);
          UniqueAppend(first.result.value, rest.result.value);
          Widen(first.result.value, s, s, m, rest.session);
          Widen(rest.result.value, s, m, rest.session, rest.session);
        }
      }
    }
  }

  lemma {:induction false} LoopLabels(s: Session, doLoop: Expression, fuel: nat)
    requires doLoop.DoLoopStatement?
    requires TableDefinesNothing(s.predefinedFunctions)
    ensures WellLabelled(s, EvalDoLoop(s, doLoop, fuel))
    decreases fuel, doLoop, 1
  {
    var inside := s.(whileCounter := s.whileCounter + 1);
    var body := EvalAst(inside, doLoop.body, fuel);
    assert WellLabelled(inside, body) by {
      SeqLabels(inside, doLoop.body.expressions, fuel);
    }
    assert CountersAdvance(inside, body.session) by {
      SeqEvolves(inside, doLoop.body.expressions, fuel);
    }
    LoopOutcomeLabels(body, s, inside);
    assert EvalDoLoop(s, doLoop, fuel) == LoopOutcome(body, s.whileCounter);
  }

  lemma {:induction false} PlusLoopLabels(s: Session, doLoop: Expression, fuel: nat)
    requires doLoop.DoPlusLoopStatement?
    requires TableDefinesNothing(s.predefinedFunctions)
    ensures WellLabelled(s, EvalDoPlusLoop(s, doLoop, fuel))
    decreases fuel, doLoop, 1
  {
    var inside := s.(whileCounter := s.whileCounter + 1);
    var body := EvalAst(inside, doLoop.body, fuel);
    assert WellLabelled(inside, body) by {
      SeqLabels(inside, doLoop.body.expressions, fuel);
    }
    assert CountersAdvance(inside, body.session) by {
      SeqEvolves(inside, doLoop.body.expressions, fuel);
    }
    PlusLoopOutcomeLabels(body, s, inside);
    assert EvalDoPlusLoop(s, doLoop, fuel) == PlusLoopOutcome(body, s.whileCounter);
  }

  /** A plain loop around a body whose labels were taken after the loop's own id. */
  lemma LoopOutcomeLabels(body: Outcome, s: Session, inside: Session)
    requires inside == s.(whileCounter := s.whileCounter + 1)
    requires WellLabelled(inside, body) && CountersAdvance(inside, body.session)
    ensures WellLabelled(s, LoopOutcome(body, s.whileCounter))
  {
    if body.result.Ok? {
      DoLoopLinesLabels(body.result.value, s.whileCounter, s, inside, body.session);
    }
  }

  /** A +LOOP around a body whose labels were taken after the loop's own id. */
  lemma PlusLoopOutcomeLabels(body: Outcome, s: Session, inside: Session)
    requires inside == s.(whileCounter := s.whileCounter + 1)
    requires WellLabelled(inside, body) && CountersAdvance(inside, body.session)
    ensures WellLabelled(s, PlusLoopOutcome(body, s.whileCounter))
  {
    if body.result.Ok? {
      DoPlusLoopLinesLabels(body.result.value, s.whileCounter, s, inside, body.session);
    }
  }

  lemma {:induction false} IfLabels(s: Session, ifStatement: Expression, fuel: nat)
    requires ifStatement.IfStatement?
    requires TableDefinesNothing(s.predefinedFunctions)
    ensures WellLabelled(s, EvalIf(s, ifStatement, fuel))
    decreases fuel, ifStatement, 1
  {
    var n := s.ifCounter;
    var inside := s.(ifCounter := n + 1);
    var ifTrue := EvalAst(inside, ifStatement.ifTrue, fuel);
    if ifTrue.result.Ok? {
      var m := ifTrue.session;
      var t := ifTrue.result.value;
      assert CountersAdvance(inside, m) && SameLookups(inside.predefinedFunctions, m.predefinedFunctions) by {
        SeqEvolves(inside, ifStatement.ifTrue.expressions, fuel);
      }
      assert UniqueDefinitions(t) && DefinedWithin(t, inside, m) by {
        SeqLabels(inside, ifStatement.ifTrue.expressions, fuel);
      }
      if !ifStatement.WithElse() {
        Wrap([Jz(EndIf(n))], t, [Define(EndIf(n))], s, inside, m);
      } else {
        SameLookupsKeepTableClean(inside.predefinedFunctions, m.predefinedFunctions);
        var ifFalse := EvalAst(m, ifStatement.ifFalse.value, fuel);
        if ifFalse.result.Ok? {
          var u := ifFalse.session;
          var f := ifFalse.result.value;
          assert CountersAdvance(m, u) by {
            SeqEvolves(m, ifStatement.ifFalse.value.expressions, fuel);
          }
          assert UniqueDefinitions(f) && DefinedWithin(f, m, u) by {
            SeqLabels(m, ifStatement.ifFalse.value.expressions, fuel);
          }
          IfElseLabels(t, f, n, s, inside, m, u);
        }
      }
    }
  }

  /** The two-branch layout around branches whose labels were taken after the `if`'s own id. */
  lemma IfElseLabels(t: seq<Line>, f: seq<Line>, n: nat, s: Session, inside: Session, m: Session, u: Session)
    requires s.ifCounter == n && inside == s.(ifCounter := n + 1)
    requires CountersAdvance(inside, m) && CountersAdvance(m, u)
    requires UniqueDefinitions(t) && DefinedWithin(t, inside, m)
    requires UniqueDefinitions(f) && DefinedWithin(f, m, u)
    ensures var lines := [Jz(Else(n))] + t + [Jump(EndIf(n)), Define(Else(n))] + f + [Define(EndIf(n))];
      UniqueDefinitions(lines) && DefinedWithin(lines, s, u)
  {
    Separate(t, f, inside, m, m, u);
    // The branch lines between the two bodies define `else{n}`, which no body can define.
    var own := [Jump(EndIf(n)), Define(Else(n))];
    Separate(t, own, inside, m, s, inside);
    Separate(own, f, s, inside, m, u);
    UniqueAppend(t, own);
    UniqueAppend(t + own, f);
    Widen(own, s, s, inside, u);
    Widen(t, s, inside, u, u);
    Widen(f, s, inside, u, u);
    var last := [Define(EndIf(n))];
    Separate(t, last, inside, m, s, inside);
    Separate(f, last, m, u, s, inside);
    assert Disjoint(t + own + f, last);
    UniqueAppend([Jz(Else(n))], t + own + f);
    UniqueAppend([Jz(Else(n))] + (t + own + f), last);
    assert [Jz(Else(n))] + t + [Jump(EndIf(n)), Define(Else(n))] + f + [Define(EndIf(n))]
      == [Jz(Else(n))] + (t + own + f) + last;
  }

  lemma {:induction false} LiteralLabels(s: Session, literal: Expression, fuel: nat)
    requires literal.Literal?
    requires TableDefinesNothing(s.predefinedFunctions)
    ensures WellLabelled(s, EvalLiteral(s, literal, fuel))
    decreases fuel, literal, 1
  {
    var value := Lower(literal.content);
    if value in s.userDefinedFunctions && fuel > 0 {
      var k := s.functionCounter;
      var inside := s.(predefinedFunctions := BindExitAndRecurse(s.predefinedFunctions, value, k),
                       functionCounter := k + 1);
      var body := EvalAst(inside, s.userDefinedFunctions[value], fuel - 1);
      assert CountersAdvance(inside, body.session) by {
        SeqEvolves(inside, s.userDefinedFunctions[value].expressions, fuel - 1);
      }
      assert WellLabelled(inside, body) by {
        SeqLabels(inside, s.userDefinedFunctions[value].expressions, fuel - 1);
      }
      ExpansionLabels(body, s, inside, value);
      assert EvalLiteral(s, literal, fuel) == ExpansionOutcome(body, s.predefinedFunctions, value, k);
    }
  }

  /** An expansion's own labels around a body whose labels were taken after the expansion's id. */
  lemma ExpansionLabels(body: Outcome, s: Session, inside: Session, value: string)
    requires inside.functionCounter == s.functionCounter + 1
    requires inside.ifCounter == s.ifCounter && inside.whileCounter == s.whileCounter
    requires WellLabelled(inside, body) && CountersAdvance(inside, body.session)
    ensures WellLabelled(s, ExpansionOutcome(body, s.predefinedFunctions, value, s.functionCounter))
  {
    if body.result.Ok? {
      var k := s.functionCounter;
      Wrap([Define(FunctionStart(value, k))], body.result.value, [Define(FunctionEnd(value, k))], s, inside, body.session);
    }
  }

  /** A whole translation from a session whose primitives define no labels. */
  lemma AstLabels(s: Session, ast: AbstractSyntaxTree, fuel: nat)
    requires TableDefinesNothing(s.predefinedFunctions)
    ensures WellLabelled(s, EvalAst(s, ast, fuel))
  {
    SeqLabels(s, ast.expressions, fuel);
  }
}
