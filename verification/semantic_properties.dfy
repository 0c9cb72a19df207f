/**
 * Properties of the name-checking pass: the `j` rule, which literals
 * resolve, use before declaration, loop depth restored on success,
 * declarations that only grow, and that declaring more names never
 * turns an accepted program into a rejected one.
 */
module SemanticProperties {
  import opened Common
  import opened Syntax
  import opened SemanticSpec

  // ---------------------------------------------------------------------
  // Literals
  // ---------------------------------------------------------------------

  /** `j` is accepted exactly at loop depth two or more, whatever has been declared. */
  lemma JNeedsANestedLoop(s: Scope)
    ensures CheckLiteral(s, "j").error.None? <==> s.loopDepth >= 2
    ensures s.loopDepth < 2 ==>
      CheckLiteral(s, "j").error == Some(SemanticError("j is only allowed inside a nested loop"))
  {
    assert "j" in PrimitiveNames();
  }

  /** Any other literal is accepted exactly when it names a variable, a word or a primitive. */
  lemma LiteralResolves(s: Scope, content: string)
    requires content != "j"
    ensures CheckLiteral(s, content).error.None? <==>
      content in s.variables || content in s.functions || content in PrimitiveNames()
    ensures CheckLiteral(s, content).error.Some? ==>
      CheckLiteral(s, content).error == Some(SemanticError("Unknown variable or function " + content))
  {
  }

  /** `exit` and `recurse` are not primitives here: they are rejected unless declared. */
  lemma ExitAndRecurseAreUnknown(s: Scope)
    ensures CheckLiteral(s, "exit").error.Some? <==> "exit" !in s.variables && "exit" !in s.functions
    ensures CheckLiteral(s, "recurse").error.Some? <==> "recurse" !in s.variables && "recurse" !in s.functions
  {
    assert "exit" !in PrimitiveNames() && "recurse" !in PrimitiveNames();
  }

  /** Checking a literal never changes the state. */
  lemma LiteralKeepsScope(s: Scope, content: string)
    ensures CheckLiteral(s, content).scope == s && CheckExpression(s, Literal(content)).scope == s
  {
  }

  // ---------------------------------------------------------------------
  // Variables and conditionals
  // ---------------------------------------------------------------------

  /** A store or fetch is accepted exactly when the name was declared before it. */
  lemma UseNeedsDeclaration(s: Scope, name: string)
    ensures CheckExpression(s, StoreVariable(name)).error.None? <==> name in s.variables
    ensures CheckExpression(s, FetchVariable(name)).error.None? <==> name in s.variables
    ensures name !in s.variables ==>
      CheckExpression(s, FetchVariable(name)).error == Some(SemanticError("Variable " + name + " not declared"))
  {
  }

  /** Order matters: a fetch before the declaration fails, after it succeeds. */
  lemma DeclarationMustComeFirst(s: Scope, name: string)
    requires name !in s.variables
    ensures CheckAst(s, AbstractSyntaxTree([FetchVariable(name), VariableDeclaration(name)])).error
      == Some(SemanticError("Variable " + name + " not declared"))
    ensures CheckAst(s, AbstractSyntaxTree([VariableDeclaration(name), FetchVariable(name)])).error == None
  {
    var declared := s.(variables := s.variables + [name]);
    assert name in declared.variables;
    CheckCons(s, FetchVariable(name), [VariableDeclaration(name)]);
    assert [FetchVariable(name)] + [VariableDeclaration(name)] == [FetchVariable(name), VariableDeclaration(name)];
    CheckSingle(declared, FetchVariable(name));
    CheckCons(s, VariableDeclaration(name), [FetchVariable(name)]);
    assert [VariableDeclaration(name)] + [FetchVariable(name)] == [VariableDeclaration(name), FetchVariable(name)];
  }

  /** A conditional is never looked into: it is accepted and changes nothing, whatever its branches hold. */
  lemma ConditionalsAreNotChecked(s: Scope, ifTrue: AbstractSyntaxTree, ifFalse: Option<AbstractSyntaxTree>)
    ensures CheckExpression(s, IfStatement(ifTrue, ifFalse)) == Report(None, s)
  {
  }

  /** A word's name is registered before its body is checked, so the body may use it. */
  lemma WordMaySelfReference(s: Scope, name: string)
    ensures CheckExpression(s, Word(name, AbstractSyntaxTree([Literal(name)]))).error.None? <==>
      name != "j" || s.loopDepth >= 2
  {
    var inside := s.(functions := s.functions + [name]);
    assert name in inside.functions;
    CheckSingle(inside, Literal(name));
    assert "j" in PrimitiveNames();
  }

  /** A second definition of a name is not an error for this pass. */
  lemma RedefinitionIsAccepted(s: Scope, name: string)
    requires name in s.functions
    ensures CheckExpression(s, Word(name, AbstractSyntaxTree([]))).error == None
  {
  }

  // ---------------------------------------------------------------------
  // Left-to-right composition
  // ---------------------------------------------------------------------

  /** Checking `a + b` checks `a`, then, if it passed, `b` from the state `a` left. */
  lemma {:induction false} CheckAppend(s: Scope, a: seq<Expression>, b: seq<Expression>)
    ensures CheckSeq(s, a + b) ==
      var first := CheckSeq(s, a);
      if first.error.Some? then first else CheckSeq(first.scope, b)
    decreases a
  {
    if a == [] {
      assert a + b == b;
    } else {
      assert (a + b)[0] == a[0] && (a + b)[1..] == a[1..] + b;
      var head := CheckExpression(s, a[0]);
      if head.error.None? {
        CheckAppend(head.scope, a[1..], b);
      }
    }
  }

  // ---------------------------------------------------------------------
  // Loop depth and declarations
  // ---------------------------------------------------------------------

  /** `a` is a prefix of `b`. */
  predicate Extends(a: seq<string>, b: seq<string>) {
    |a| <= |b| && b[..|a|] == a
  }

  /**
   * What each visitor keeps, whatever it returned: the name lists only
   * grow at the end and the depth never drops; on success the depth is
   * back where it was.
   */
  predicate Keeps(s: Scope, r: Report) {
    Extends(s.variables, r.scope.variables) && Extends(s.functions, r.scope.functions) &&
    s.loopDepth <= r.scope.loopDepth &&
    (r.error.None? ==> r.scope.loopDepth == s.loopDepth)
  }

  lemma ExtendsTransitive(a: seq<string>, b: seq<string>, c: seq<string>)
    requires Extends(a, b) && Extends(b, c)
    ensures Extends(a, c)
  {
    assert c[..|a|] == c[..|b|][..|a|];
  }

  lemma ExtendsByOne(a: seq<string>, x: string)
    ensures Extends(a, a + [x])
  {
    assert (a + [x])[..|a|] == a;
  }

  lemma KeepsTransitive(s: Scope, m: Report, r: Report)
    requires Keeps(s, m) && m.error.None? && Keeps(m.scope, r)
    ensures Keeps(s, r)
  {
    ExtendsTransitive(s.variables, m.scope.variables, r.scope.variables);
    ExtendsTransitive(s.functions, m.scope.functions, r.scope.functions);
  }

  lemma {:induction false} ExpressionKeeps(s: Scope, e: Expression)
    ensures Keeps(s, CheckExpression(s, e))
    decreases e, 2
  {
    match e
    case Word(name, ast) =>
      var inside := s.(functions := s.functions + [name]);
      var r := CheckAst(inside, ast);
      assert Keeps(inside, r) by {
        SeqKeeps(inside, ast.expressions);
      }
      ExtendsByOne(s.functions, name);
      ExtendsTransitive(s.functions, inside.functions, r.scope.functions);
      assert CheckExpression(s, e) == r;
    case DoLoopStatement(body) =>
      LoopKeeps(s, body);
      assert CheckExpression(s, e) == CheckLoop(s, body);
    case DoPlusLoopStatement(body) =>
      LoopKeeps(s, body);
      assert CheckExpression(s, e) == CheckLoop(s, body);
    case VariableDeclaration(name) => ExtendsByOne(s.variables, name);
    case _ =>
  }

  lemma {:induction false} SeqKeeps(s: Scope, es: seq<Expression>)
    ensures Keeps(s, CheckSeq(s, es))
    decreases es, 0
  {
    if es != [] {
      var first := CheckExpression(s, es[0]);
      ExpressionKeeps(s, es[0]);
      if first.error.None? {
        SeqKeeps(first.scope, es[1..]);
        KeepsTransitive(s, first, CheckSeq(first.scope, es[1..]));
      }
    }
  }

  lemma {:induction false} LoopKeeps(s: Scope, body: AbstractSyntaxTree)
    ensures Keeps(s, CheckLoop(s, body))
    decreases body, 1
  {
    SeqKeeps(s.(loopDepth := s.loopDepth + 1), body.expressions);
  }

  /** A whole tree: names only grow, and on success the loop depth is back where it started. */
  lemma AstKeeps(s: Scope, ast: AbstractSyntaxTree)
    ensures var r := CheckAst(s, ast);
      Extends(s.variables, r.scope.variables) && Extends(s.functions, r.scope.functions) &&
      s.loopDepth <= r.scope.loopDepth && (r.error.None? ==> r.scope.loopDepth == s.loopDepth)
  {
    SeqKeeps(s, ast.expressions);
  }

  /** The expression after a loop is checked at the depth outside the loop. */
  lemma SiblingsSeeTheOuterDepth(s: Scope, body: AbstractSyntaxTree, next: Expression)
    requires CheckLoop(s, body).error.None?
    ensures CheckSeq(s, [DoLoopStatement(body), next]) == CheckExpression(CheckLoop(s, body).scope, next)
    ensures CheckLoop(s, body).scope.loopDepth == s.loopDepth
  {
    LoopKeeps(s, body);
    CheckCons(s, DoLoopStatement(body), [next]);
    assert [DoLoopStatement(body)] + [next] == [DoLoopStatement(body), next];
    CheckSingle(CheckLoop(s, body).scope, next);
  }

  // ---------------------------------------------------------------------
  // More declarations never hurt
  // ---------------------------------------------------------------------

  /** `t` knows every name `s` knows and is at least as deep in loops. */
  ghost predicate Covers(s: Scope, t: Scope) {
    (forall x :: x in s.variables ==> x in t.variables) &&
    (forall x :: x in s.functions ==> x in t.functions) &&
    s.loopDepth <= t.loopDepth
  }

  /** What a visitor accepts from `s` it also accepts from any `t` covering `s`, and covering persists. */
  ghost predicate Monotone(s: Scope, t: Scope, a: Report, b: Report) {
    a.error.None? ==> b.error.None? && Covers(a.scope, b.scope)
  }

  lemma {:induction false} ExpressionMonotone(s: Scope, t: Scope, e: Expression)
    requires Covers(s, t)
    ensures Monotone(s, t, CheckExpression(s, e), CheckExpression(t, e))
    decreases e, 2
  {
    match e
    case Word(name, ast) =>
      var s1 := s.(functions := s.functions + [name]);
      var t1 := t.(functions := t.functions + [name]);
      assert Covers(s1, t1);
      SeqMonotone(s1, t1, ast.expressions);
      assert CheckExpression(s, e) == CheckSeq(s1, ast.expressions);
      assert CheckExpression(t, e) == CheckSeq(t1, ast.expressions);
    case DoLoopStatement(body) =>
      LoopMonotone(s, t, body);
      assert CheckExpression(s, e) == CheckLoop(s, body) && CheckExpression(t, e) == CheckLoop(t, body);
    case DoPlusLoopStatement(body) =>
      LoopMonotone(s, t, body);
      assert CheckExpression(s, e) == CheckLoop(s, body) && CheckExpression(t, e) == CheckLoop(t, body);
    case _ =>
  }

  lemma {:induction false} SeqMonotone(s: Scope, t: Scope, es: seq<Expression>)
    requires Covers(s, t)
    ensures Monotone(s, t, CheckSeq(s, es), CheckSeq(t, es))
    decreases es, 0
  {
    if es != [] {
      var a := CheckExpression(s, es[0]);
      var b := CheckExpression(t, es[0]);
      ExpressionMonotone(s, t, es[0]);
      if a.error.None? {
        SeqMonotone(a.scope, b.scope, es[1..]);
      }
    }
  }

  lemma {:induction false} LoopMonotone(s: Scope, t: Scope, body: AbstractSyntaxTree)
    requires Covers(s, t)
    ensures Monotone(s, t, CheckLoop(s, body), CheckLoop(t, body))
    decreases body, 1
  {
    var a := CheckAst(s.(loopDepth := s.loopDepth + 1), body);
    var b := CheckAst(t.(loopDepth := t.loopDepth + 1), body);
    SeqMonotone(s.(loopDepth := s.loopDepth + 1), t.(loopDepth := t.loopDepth + 1), body.expressions);
    if a.error.None? {
      assert Covers(a.scope.(loopDepth := a.scope.loopDepth - 1), b.scope.(loopDepth := b.scope.loopDepth - 1));
    }
  }

  /** A program accepted from `s` is accepted from any state that knows more names and is as deep. */
  lemma MoreDeclarationsNeverHurt(s: Scope, t: Scope, ast: AbstractSyntaxTree)
    requires Covers(s, t)
    ensures CheckAst(s, ast).error.None? ==> CheckAst(t, ast).error.None?
  {
    SeqMonotone(s, t, ast.expressions);
  }

  // ---------------------------------------------------------------------
  // Worked example
  // ---------------------------------------------------------------------

  /** `DO DO j LOOP LOOP` passes; `DO j LOOP` does not. */
  lemma NestedJExample()
    ensures CheckAst(InitialScope(), AbstractSyntaxTree([DoLoopStatement(AbstractSyntaxTree([
              DoLoopStatement(AbstractSyntaxTree([Literal("j")]))]))])).error == None
    ensures CheckAst(InitialScope(), AbstractSyntaxTree([DoLoopStatement(AbstractSyntaxTree([Literal("j")]))])).error
      == Some(SemanticError("j is only allowed inside a nested loop"))
  {
    var s := InitialScope();
    var j := Literal("j");
    var inner := DoLoopStatement(AbstractSyntaxTree([j]));
    var outer := DoLoopStatement(AbstractSyntaxTree([inner]));
    assert "j" in PrimitiveNames();
    CheckSingle(s.(loopDepth := 2), j);
    CheckSingle(s.(loopDepth := 1), inner);
    CheckSingle(s, outer);
    CheckSingle(s.(loopDepth := 1), j);
    CheckSingle(s, inner);
  }
}
