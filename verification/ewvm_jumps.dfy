/**
 * Branch targets in the generated program. Every `jz` and `jump` that a
 * successful translation emits either targets a label the same output
 * defines, or one of the targets already present in the primitive table
 * (the `exit`/`recurse` jumps of the word expansions that enclose the
 * call). From a new translator, whose table holds no branch, every target
 * is defined, and defined exactly once.
 */
module EwvmJumps {
  import opened Common
  import opened Syntax
  import opened EwvmLowering
  import opened EwvmSpec
  import opened EwvmSession
  import opened EwvmLabels

  /** The labels `lines` defines. */
  ghost function Defined(lines: seq<Line>): set<Label> {
    set line | line in lines && line.Define? :: line.defined
  }

  /** The labels `lines` branches to. */
  ghost function Targets(lines: seq<Line>): set<Label> {
    set line | line in lines && line.IsBranch() :: line.target
  }

  /** Every branch in `lines` targets a label `lines` defines, or one in `outer`. */
  ghost predicate BranchesResolved(lines: seq<Line>, outer: set<Label>) {
    Targets(lines) <= Defined(lines) + outer
  }

  /** Every branch stored in the primitive table targets a label in `outer`. */
  ghost predicate TableTargetsWithin(table: map<string, Option<seq<Line>>>, outer: set<Label>) {
    forall key | key in table && table[key].Some? :: Targets(table[key].value) <= outer
  }

  ghost predicate Resolves(o: Outcome, outer: set<Label>) {
    o.result.Ok? ==> BranchesResolved(o.result.value, outer)
  }

  lemma SetsOfAppend(a: seq<Line>, b: seq<Line>)
    ensures Defined(a + b) == Defined(a) + Defined(b)
    ensures Targets(a + b) == Targets(a) + Targets(b)
  {
    var c := a + b;
    assert forall line :: line in c <==> line in a || line in b;
    assert Defined(c) == Defined(a) + Defined(b) by {
      forall l | l in Defined(c) ensures l in Defined(a) + Defined(b) {
        var line :| line in c && line.Define? && line.defined == l;
      }
      forall l | l in Defined(a) + Defined(b) ensures l in Defined(c) {
        if l in Defined(a) {
          var line :| line in a && line.Define? && line.defined == l;
        } else {
          var line :| line in b && line.Define? && line.defined == l;
        }
      }
    }
    assert Targets(c) == Targets(a) + Targets(b) by {
      forall l | l in Targets(c) ensures l in Targets(a) + Targets(b) {
        var line :| line in c && line.IsBranch() && line.target == l;
      }
      forall l | l in Targets(a) + Targets(b) ensures l in Targets(c) {
        if l in Targets(a) {
          var line :| line in a && line.IsBranch() && line.target == l;
        } else {
          var line :| line in b && line.IsBranch() && line.target == l;
        }
      }
    }
  }

  /** Three pieces: the sets of the whole are the unions of the pieces' sets. */
  lemma SetsOfWrap(head: seq<Line>, body: seq<Line>, end: seq<Line>)
    ensures Defined(head + body + end) == Defined(head) + Defined(body) + Defined(end)
    ensures Targets(head + body + end) == Targets(head) + Targets(body) + Targets(end)
  {
    SetsOfAppend(head, body);
    SetsOfAppend(head + body, end);
  }

  lemma SameLookupsKeepTargets(a: map<string, Option<seq<Line>>>, b: map<string, Option<seq<Line>>>, outer: set<Label>)
    requires TableTargetsWithin(a, outer) && SameLookups(a, b)
    ensures TableTargetsWithin(b, outer)
  {
    forall key | key in b && b[key].Some?
      ensures key in a && a[key] == b[key]
    {
      assert Get(a, key) == Get(b, key);
    }
  }

  /** The rewrite of `i` changes no label and no branch. */
  lemma RewriteKeepsBranches(body: seq<Line>, n: nat)
    ensures Defined(RewriteIndex(body, n)) == Defined(body)
    ensures Targets(RewriteIndex(body, n)) == Targets(body)
  {
    var r := RewriteIndex(body, n);
    assert forall k :: 0 <= k < |r| && (r[k].Define? || r[k].IsBranch() || body[k].Define? || body[k].IsBranch()) ==> r[k] == body[k];
    forall l | l in Defined(r) ensures l in Defined(body) {
      var line :| line in r && line.Define? && line.defined == l;
      var k :| 0 <= k < |r| && r[k] == line;
      assert body[k] in body;
    }
    forall l | l in Defined(body) ensures l in Defined(r) {
      var line :| line in body && line.Define? && line.defined == l;
      var k :| 0 <= k < |body| && body[k] == line;
      assert r[k] in r;
    }
    forall l | l in Targets(r) ensures l in Targets(body) {
      var line :| line in r && line.IsBranch() && line.target == l;
      var k :| 0 <= k < |r| && r[k] == line;
      assert body[k] in body;
    }
    forall l | l in Targets(body) ensures l in Targets(r) {
      var line :| line in body && line.IsBranch() && line.target == l;
      var k :| 0 <= k < |body| && body[k] == line;
      assert r[k] in r;
    }
  }

  /** `BranchesOnlyTo`: every branch in `lines` targets a label in `allowed`. */
  lemma BranchesOnlyTo(lines: seq<Line>, allowed: set<Label>)
    requires forall k | 0 <= k < |lines| && lines[k].IsBranch() :: lines[k].target in allowed
    ensures Targets(lines) <= allowed
  {
    forall l | l in Targets(lines) ensures l in allowed {
      var line :| line in lines && line.IsBranch() && line.target == l;
      var k :| 0 <= k < |lines| && lines[k] == line;
    }
  }

  lemma DefinesAt(lines: seq<Line>, k: nat, l: Label)
    requires k < |lines| && lines[k] == Define(l)
    ensures l in Defined(lines)
  {
    assert lines[k] in lines;
  }

  /** The plain loop's pieces jump only to labels they define themselves. */
  lemma LoopPiecesResolved(n: nat)
    ensures Targets(LoopInitialization(n) + LoopCondition(n)) + Targets(LoopEnd(n))
         <= Defined(LoopInitialization(n) + LoopCondition(n)) + Defined(LoopEnd(n))
  {
    var head := LoopInitialization(n) + LoopCondition(n);
    var end := LoopEnd(n);
    BranchesOnlyTo(head, {EndWhile(n)});
    BranchesOnlyTo(end, {StartWhile(n)});
    DefinesAt(head, 6, StartWhile(n));
    DefinesAt(end, 8, EndWhile(n));
  }

  /** The +LOOP pieces jump only to labels they define themselves. */
  lemma PlusLoopPiecesResolved(n: nat)
    ensures Targets(PlusLoopInitialization(n) + PlusLoopCondition(n)) + Targets(PlusLoopEnd(n))
         <= Defined(PlusLoopInitialization(n) + PlusLoopCondition(n)) + Defined(PlusLoopEnd(n))
  {
    var head := PlusLoopInitialization(n) + PlusLoopCondition(n);
    var end := PlusLoopEnd(n);
    BranchesOnlyTo(head, {IfReverseLoop(n), ElseReverseLoop(n), EndWhile(n)});
    BranchesOnlyTo(end, {StartWhile(n)});
    DefinesAt(head, 10, StartWhile(n));
    DefinesAt(head, 22, IfReverseLoop(n));
    DefinesAt(head, 26, ElseReverseLoop(n));
    DefinesAt(end, 7, EndWhile(n));
  }

  lemma SingleLineSets(line: Line)
    ensures Defined([line]) == if line.Define? then {line.defined} else {}
    ensures Targets([line]) == if line.IsBranch() then {line.target} else {}
  {
    assert line in [line];
  }

  /** Own lines that resolve among themselves, around a resolved body. */
  lemma WrapResolved(head: seq<Line>, body: seq<Line>, end: seq<Line>, outer: set<Label>)
    requires Targets(head) + Targets(end) <= Defined(head) + Defined(end)
    requires BranchesResolved(body, outer)
    ensures BranchesResolved(head + body + end, outer)
  {
    SetsOfWrap(head, body, end);
  }

  lemma LoopResolved(body: seq<Line>, n: nat, outer: set<Label>)
    requires BranchesResolved(body, outer)
    ensures BranchesResolved(DoLoopLines(body, n), outer)
  {
    RewriteKeepsBranches(body, n);
    LoopPiecesResolved(n);
    WrapResolved(LoopInitialization(n) + LoopCondition(n), RewriteIndex(body, n), LoopEnd(n), outer);
  }

  lemma PlusLoopResolved(body: seq<Line>, n: nat, outer: set<Label>)
    requires BranchesResolved(body, outer)
    ensures BranchesResolved(DoPlusLoopLines(body, n), outer)
  {
    RewriteKeepsBranches(body, n);
    PlusLoopPiecesResolved(n);
    WrapResolved(PlusLoopInitialization(n) + PlusLoopCondition(n), RewriteIndex(body, n), PlusLoopEnd(n), outer);
  }

  lemma IfResolved(t: seq<Line>, n: nat, outer: set<Label>)
    requires BranchesResolved(t, outer)
    ensures BranchesResolved([Jz(EndIf(n))] + t + [Define(EndIf(n))], outer)
  {
    SingleLineSets(Jz(EndIf(n)));
    SingleLineSets(Define(EndIf(n)));
    WrapResolved([Jz(EndIf(n))], t, [Define(EndIf(n))], outer);
  }

  lemma IfElseResolved(t: seq<Line>, f: seq<Line>, n: nat, outer: set<Label>)
    requires BranchesResolved(t, outer) && BranchesResolved(f, outer)
    ensures BranchesResolved([Jz(Else(n))] + t + [Jump(EndIf(n)), Define(Else(n))] + f + [Define(EndIf(n))], outer)
  {
    var own := [Jump(EndIf(n)), Define(Else(n))];
    var middle := t + own + f;
    // Between the branches: a jump to `endif{n}` and the definition of `else{n}`.
    assert Targets(middle) <= Defined(middle) + outer + {EndIf(n)} && Else(n) in Defined(middle) by {
      assert Defined(own) == {Else(n)} && Targets(own) == {EndIf(n)} by {
        SingleLineSets(Jump(EndIf(n)));
        SingleLineSets(Define(Else(n)));
        SetsOfAppend([Jump(EndIf(n))], [Define(Else(n))]);
        assert own == [Jump(EndIf(n))] + [Define(Else(n))];
      }
      SetsOfWrap(t, own, f);
    }
    // Around them: `jz else{n}` before and the definition of `endif{n}` after.
    SingleLineSets(Jz(Else(n)));
    SingleLineSets(Define(EndIf(n)));
    SetsOfWrap([Jz(Else(n))], middle, [Define(EndIf(n))]);
    assert [Jz(Else(n))] + t + own + f + [Define(EndIf(n))] == [Jz(Else(n))] + middle + [Define(EndIf(n))];
  }

  lemma ExpansionResolved(body: seq<Line>, value: string, k: nat, outer: set<Label>)
    requires BranchesResolved(body, outer + {FunctionStart(value, k), FunctionEnd(value, k)})
    ensures BranchesResolved([Define(FunctionStart(value, k))] + body + [Define(FunctionEnd(value, k))], outer)
  {
    SingleLineSets(Define(FunctionStart(value, k)));
    SingleLineSets(Define(FunctionEnd(value, k)));
    SetsOfWrap([Define(FunctionStart(value, k))], body, [Define(FunctionEnd(value, k))]);
  }

  lemma {:induction false} ExpressionJumps(s: Session, e: Expression, fuel: nat, outer: set<Label>)
    requires TableTargetsWithin(s.predefinedFunctions, outer)
    ensures Resolves(EvalExpression(s, e, fuel), outer)
    decreases fuel, e, 2
  {
    match e
    case Number(n) =>
      assert Targets(VisitNumber(n)) == {} by { assert VisitNumber(n)[0].Op?; }
    case Operator(t) =>
      var r := VisitOperator(t);
      if r.Ok? {
        assert Targets(r.value) == {} by { assert r.value[0].Op?; }
      }
    case ComparisonOperator(t) =>
      var r := VisitComparisonOperator(t);
      assert Targets(r) == {} by { assert forall line | line in r :: line.Op?; }
    case DoLoopStatement(_) => LoopJumps(s, e, fuel, outer);
    case DoPlusLoopStatement(_) => PlusLoopJumps(s, e, fuel, outer);
    case IfStatement(_, _) => IfJumps(s, e, fuel, outer);
    case Literal(_) => LiteralJumps(s, e, fuel, outer);
    case PrintString(c) =>
      assert Targets(PrintStringLines(c)) == {} by { assert forall line | line in PrintStringLines(c) :: line.Op?; }
    case CharFunction(c) =>
      assert Targets(CharFunctionLines(c)) == {} by { assert forall line | line in CharFunctionLines(c) :: line.Op?; }
    case _ =>
  }

  lemma {:induction false} SeqJumps(s: Session, es: seq<Expression>, fuel: nat, outer: set<Label>)
    requires TableTargetsWithin(s.predefinedFunctions, outer)
    ensures Resolves(EvalSeq(s, es, fuel), outer)
    decreases fuel, es, 0
  {
    if es != [] {
      var first := EvalExpression(s, es[0], fuel);
      ExpressionJumps(s, es[0], fuel, outer);
      ExpressionEvolves(s, es[0], fuel);
      if first.result.Ok? {
        SameLookupsKeepTargets(s.predefinedFunctions, first.session.predefinedFunctions, outer);
        var rest := EvalSeq(first.session, es[1..], fuel);
        SeqJumps(first.session, es[1..], fuel, outer);
        if rest.result.Ok? {
          SetsOfAppend(first.result.value, rest.result.value);
        }
      }
    } else {
      assert Targets([]) == {};
    }
  }

  lemma {:induction false} LoopJumps(s: Session, doLoop: Expression, fuel: nat, outer: set<Label>)
    requires doLoop.DoLoopStatement?
    requires TableTargetsWithin(s.predefinedFunctions, outer)
    ensures Resolves(EvalDoLoop(s, doLoop, fuel), outer)
    decreases fuel, doLoop, 1
  {
    var inside := s.(whileCounter := s.whileCounter + 1);
    var body := EvalAst(inside, doLoop.body, fuel);
    assert Resolves(body, outer) by {
      SeqJumps(inside, doLoop.body.expressions, fuel, outer);
    }
    LoopOutcomeResolved(body, s.whileCounter, outer);
    assert EvalDoLoop(s, doLoop, fuel) == LoopOutcome(body, s.whileCounter);
  }

  lemma {:induction false} PlusLoopJumps(s: Session, doLoop: Expression, fuel: nat, outer: set<Label>)
    requires doLoop.DoPlusLoopStatement?
    requires TableTargetsWithin(s.predefinedFunctions, outer)
    ensures Resolves(EvalDoPlusLoop(s, doLoop, fuel), outer)
    decreases fuel, doLoop, 1
  {
    var inside := s.(whileCounter := s.whileCounter + 1);
    var body := EvalAst(inside, doLoop.body, fuel);
    assert Resolves(body, outer) by {
      SeqJumps(inside, doLoop.body.expressions, fuel, outer);
    }
    PlusLoopOutcomeResolved(body, s.whileCounter, outer);
    assert EvalDoPlusLoop(s, doLoop, fuel) == PlusLoopOutcome(body, s.whileCounter);
  }

  /** A plain loop resolves its branches when its body does. */
  lemma LoopOutcomeResolved(body: Outcome, n: nat, outer: set<Label>)
    requires Resolves(body, outer)
    ensures Resolves(LoopOutcome(body, n), outer)
  {
    if body.result.Ok? {
      LoopResolved(body.result.value, n, outer);
    }
  }

  /** A +LOOP resolves its branches when its body does. */
  lemma PlusLoopOutcomeResolved(body: Outcome, n: nat, outer: set<Label>)
    requires Resolves(body, outer)
    ensures Resolves(PlusLoopOutcome(body, n), outer)
  {
    if body.result.Ok? {
      PlusLoopResolved(body.result.value, n, outer);
    }
  }

  lemma {:induction false} IfJumps(s: Session, ifStatement: Expression, fuel: nat, outer: set<Label>)
    requires ifStatement.IfStatement?
    requires TableTargetsWithin(s.predefinedFunctions, outer)
    ensures Resolves(EvalIf(s, ifStatement, fuel), outer)
    decreases fuel, ifStatement, 1
  {
    var n := s.ifCounter;
    var inside := s.(ifCounter := n + 1);
    var ifTrue := EvalAst(inside, ifStatement.ifTrue, fuel);
    SeqJumps(inside, ifStatement.ifTrue.expressions, fuel, outer);
    SeqEvolves(inside, ifStatement.ifTrue.expressions, fuel);
    if ifTrue.result.Ok? {
      var t := ifTrue.result.value;
      if !ifStatement.WithElse() {
        IfResolved(t, n, outer);
      } else {
        var m := ifTrue.session;
        SameLookupsKeepTargets(inside.predefinedFunctions, m.predefinedFunctions, outer);
        var ifFalse := EvalAst(m, ifStatement.ifFalse.value, fuel);
        SeqJumps(m, ifStatement.ifFalse.value.expressions, fuel, outer);
        if ifFalse.result.Ok? {
          IfElseResolved(t, ifFalse.result.value, n, outer);
        }
      }
    }
  }

  lemma {:induction false} LiteralJumps(s: Session, literal: Expression, fuel: nat, outer: set<Label>)
    requires literal.Literal?
    requires TableTargetsWithin(s.predefinedFunctions, outer)
    ensures Resolves(EvalLiteral(s, literal, fuel), outer)
    decreases fuel, literal, 1
  {
    var value := Lower(literal.content);
    if value in s.userDefinedFunctions && fuel > 0 {
      var k := s.functionCounter;
      var bound := BindExitAndRecurse(s.predefinedFunctions, value, k);
      var inner := outer + {FunctionStart(value, k), FunctionEnd(value, k)};
      SingleLineSets(Jump(FunctionEnd(value, k)));
      SingleLineSets(Jump(FunctionStart(value, k)));
      assert TableTargetsWithin(bound, inner);
      var inside := s.(predefinedFunctions := bound, functionCounter := k + 1);
      var body := EvalAst(inside, s.userDefinedFunctions[value], fuel - 1);
      assert Resolves(body, inner) by {
        SeqJumps(inside, s.userDefinedFunctions[value].expressions, fuel - 1, inner);
      }
      if body.result.Ok? {
        ExpansionResolved(body.result.value, value, k, outer);
      }
      assert EvalLiteral(s, literal, fuel) == ExpansionOutcome(body, s.predefinedFunctions, value, k);
    } else if value !in s.userDefinedFunctions && value in s.predefinedFunctions && s.predefinedFunctions[value].Some? {
      assert Targets(s.predefinedFunctions[value].value) <= outer;
    }
  }

  /**
   * From a new translator, a successful translation defines every label
   * it jumps to, and defines it exactly once.
   */
  lemma TranslationIsClosed(ast: AbstractSyntaxTree, fuel: nat)
    ensures var o := EvalAst(InitialSession(), ast, fuel);
      o.result.Ok? ==>
        UniqueDefinitions(o.result.value) &&
        Targets(o.result.value) <= Defined(o.result.value)
  {
    var s := InitialSession();
    var table := s.predefinedFunctions;
    forall key | key in table && table[key].Some?
      ensures Targets(table[key].value) == {}
      ensures forall line | line in table[key].value :: !line.Define?
    {
      assert forall line | line in table[key].value :: line.Op?;
    }
    AstLabels(s, ast, fuel);
    SeqJumps(s, ast.expressions, fuel, {});
  }
}
