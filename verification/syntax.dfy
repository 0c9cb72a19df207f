/**
 * The abstract syntax of the Forth dialect: the closed family of
 * expression nodes, the program (`AbstractSyntaxTree`), the constructors
 * that fold identifier case, and Python's field-wise `__eq__`.
 *
 * Every pass dispatches on a node with an exhaustive `match`; that match
 * plays the part of `Expression.evaluate` calling one visitor method.
 */
module Syntax {
  import opened Common

  datatype OperatorType = Plus | Minus | Times | Divide | Exp | Mod | SlashMod {
    /** The enum member's integer value; `__eq__` compares these. */
    function Value(): (v: nat)
      ensures 1 <= v <= 7
    {
      match this
      case Plus => 1
      case Minus => 2
      case Times => 3
      case Divide => 4
      case Exp => 5
      case Mod => 6
      case SlashMod => 7
    }
  }

  datatype ComparisonOperatorType =
    | Equals | NotEquals | LessThan | LessThanOrEqualTo | GreaterThan | GreaterThanOrEqualTo
    | ZeroEquals | ZeroLessThan | ZeroLessThanOrEqualTo | ZeroGreaterThan | ZeroGreaterThanOrEqualTo
  {
    /** The enum member's integer value; `__eq__` compares these. */
    function Value(): (v: nat)
      ensures 1 <= v <= 11
    {
      match this
      case Equals => 1
      case NotEquals => 2
      case LessThan => 3
      case LessThanOrEqualTo => 4
      case GreaterThan => 5
      case GreaterThanOrEqualTo => 6
      case ZeroEquals => 7
      case ZeroLessThan => 8
      case ZeroLessThanOrEqualTo => 9
      case ZeroGreaterThan => 10
      case ZeroGreaterThanOrEqualTo => 11
    }
  }

  /** Two members of an operator enum are equal exactly when their values are. */
  lemma OperatorTypesCompareByValue(a: OperatorType, b: OperatorType)
    ensures a == b <==> a.Value() == b.Value()
  {
  }

  /** Two members of the comparison enum are equal exactly when their values are. */
  lemma ComparisonTypesCompareByValue(a: ComparisonOperatorType, b: ComparisonOperatorType)
    ensures a == b <==> a.Value() == b.Value()
  {
  }

  datatype Expression =
    | Number(number: int)
    | Operator(operatorType: OperatorType)
    | ComparisonOperator(comparisonOperatorType: ComparisonOperatorType)
    | Literal(content: string)
    | Word(name: string, ast: AbstractSyntaxTree)
    | DoLoopStatement(body: AbstractSyntaxTree)
    | DoPlusLoopStatement(body: AbstractSyntaxTree)
    | BeginUntilStatement(body: AbstractSyntaxTree)
    | BeginAgainStatement(body: AbstractSyntaxTree)
    | IfStatement(ifTrue: AbstractSyntaxTree, ifFalse: Option<AbstractSyntaxTree>)
    | VariableDeclaration(name: string)
    | ConstantDeclaration(name: string)
    | StoreVariable(name: string)
    | FetchVariable(name: string)
    | PrintString(content: string)
    | CharFunction(charCode: int)
  {
    /** The `with_else` flag an `IfStatement` computes when it is built. */
    predicate WithElse()
      requires IfStatement?
    {
      ifFalse.Some?
    }
  }

  /** A program: its expressions in execution order. */
  datatype AbstractSyntaxTree = AbstractSyntaxTree(expressions: seq<Expression>)

  // ---------------------------------------------------------------------
  // Constructors (`__init__`): identifier names are stored lower-cased
  // ---------------------------------------------------------------------

  function NewLiteral(content: string): (e: Expression)
    ensures e.Literal? && IsLowered(e.content) && EqualIgnoringCase(e.content, content)
  {
    Literal(Lower(content))
  }

  function NewWord(name: string, ast: AbstractSyntaxTree): (e: Expression)
    ensures e.Word? && IsLowered(e.name) && EqualIgnoringCase(e.name, name) && e.ast == ast
  {
    Word(Lower(name), ast)
  }

  function NewVariableDeclaration(name: string): (e: Expression)
    ensures e.VariableDeclaration? && IsLowered(e.name) && EqualIgnoringCase(e.name, name)
  {
    VariableDeclaration(Lower(name))
  }

  function NewConstantDeclaration(name: string): (e: Expression)
    ensures e.ConstantDeclaration? && IsLowered(e.name) && EqualIgnoringCase(e.name, name)
  {
    ConstantDeclaration(Lower(name))
  }

  function NewStoreVariable(name: string): (e: Expression)
    ensures e.StoreVariable? && IsLowered(e.name) && EqualIgnoringCase(e.name, name)
  {
    StoreVariable(Lower(name))
  }

  function NewFetchVariable(name: string): (e: Expression)
    ensures e.FetchVariable? && IsLowered(e.name) && EqualIgnoringCase(e.name, name)
  {
    FetchVariable(Lower(name))
  }

  function NewIfStatement(ifTrue: AbstractSyntaxTree, ifFalse: Option<AbstractSyntaxTree>): (e: Expression)
    ensures e.IfStatement? && e.ifTrue == ifTrue && e.ifFalse == ifFalse
    ensures e.WithElse() <==> ifFalse.Some?
  {
    IfStatement(ifTrue, ifFalse)
  }

  /**
   * A print string keeps its text verbatim, while a literal built from the
   * same text is case-folded: the two agree exactly when the text has no
   * upper-case letter.
   */
  lemma PrintStringKeepsCase(text: string)
    ensures PrintString(text).content == text
    ensures NewLiteral(text).content == text <==> IsLowered(text)
  {
    if IsLowered(text) {
      LowerFixesLowered(text);
    }
  }

  // ---------------------------------------------------------------------
  // Python equality (`__eq__`)
  // ---------------------------------------------------------------------

  /**
   * The outcome of `a == b` in Python: `True`, `False`, or an
   * `AttributeError` because `a.__eq__` read a field that `b` lacks.
   */
  datatype Comparison = Same | Differ | AttributeError

  function FromBool(b: bool): Comparison {
    if b then Same else Differ
  }

  /** The node kinds that have a `content` field. */
  predicate HasContent(e: Expression) {
    e.Literal? || e.PrintString?
  }

  /** The node kinds that have a `name` field. */
  predicate HasName(e: Expression) {
    e.Word? || e.VariableDeclaration? || e.ConstantDeclaration? || e.StoreVariable? || e.FetchVariable?
  }

  /** The node kinds that have a `body` field. */
  predicate HasBody(e: Expression) {
    e.DoLoopStatement? || e.DoPlusLoopStatement? || e.BeginUntilStatement? || e.BeginAgainStatement?
  }

  /**
   * `a.__eq__(b)`: `a` compares its own fields with the same-named fields
   * of `b`, whatever kind of node `b` is.
   */
  function ExpressionEq(a: Expression, b: Expression): Comparison
    decreases a, 0
  {
    match a
    case Number(n) =>
      if b.Number? then FromBool(n == b.number) else AttributeError
    case Operator(t) =>
      if b.Operator? then FromBool(t.Value() == b.operatorType.Value()) else AttributeError
    case ComparisonOperator(t) =>
      if b.ComparisonOperator? then FromBool(t.Value() == b.comparisonOperatorType.Value()) else AttributeError
    case Literal(c) =>
      if HasContent(b) then FromBool(c == b.content) else AttributeError
    case PrintString(c) =>
      if HasContent(b) then FromBool(c == b.content) else AttributeError
    case Word(n, t) =>
      if !HasName(b) then AttributeError
      else if n != b.name then Differ
      else if !b.Word? then AttributeError
      else AstEq(t, b.ast)
    case DoLoopStatement(t) =>
      if HasBody(b) then AstEq(t, b.body) else AttributeError
    case DoPlusLoopStatement(t) =>
      if HasBody(b) then AstEq(t, b.body) else AttributeError
    case BeginUntilStatement(t) =>
      if HasBody(b) then AstEq(t, b.body) else AttributeError
    case BeginAgainStatement(t) =>
      if HasBody(b) then AstEq(t, b.body) else AttributeError
    case IfStatement(t, f) =>
      if !b.IfStatement? then AttributeError
      else
        var first := AstEq(t, b.ifTrue);
        if first == Same then OptionalAstEq(f, b.ifFalse) else first
    case VariableDeclaration(n) =>
      if HasName(b) then FromBool(n == b.name) else AttributeError
    case ConstantDeclaration(n) =>
      if HasName(b) then FromBool(n == b.name) else AttributeError
    case StoreVariable(n) =>
      if HasName(b) then FromBool(n == b.name) else AttributeError
    case FetchVariable(n) =>
      if HasName(b) then FromBool(n == b.name) else AttributeError
    case CharFunction(c) =>
      if b.CharFunction? then FromBool(c == b.charCode) else AttributeError
  }

  /** `AbstractSyntaxTree.__eq__`: Python list equality of the expressions. */
  function AstEq(a: AbstractSyntaxTree, b: AbstractSyntaxTree): Comparison
    decreases a, 0
  {
    ListEq(a.expressions, b.expressions)
  }

  /** Lists of different lengths differ without comparing any element. */
  function ListEq(xs: seq<Expression>, ys: seq<Expression>): Comparison
    decreases xs, 1
  {
    if |xs| != |ys| then Differ else ItemsEq(xs, ys)
  }

  /** Element by element from the front; the first non-`Same` answer decides. */
  function ItemsEq(xs: seq<Expression>, ys: seq<Expression>): Comparison
    requires |xs| == |ys|
    decreases xs, 0
  {
    if xs == [] then Same
    else
      var head := ExpressionEq(xs[0], ys[0]);
      if head == Same then ItemsEq(xs[1..], ys[1..]) else head
  }

  /**
   * `if_false == other.if_false` with `None` for a missing else branch:
   * `None == None` holds, and otherwise the tree's `__eq__` reads
   * `expressions` of `None`.
   */
  function OptionalAstEq(a: Option<AbstractSyntaxTree>, b: Option<AbstractSyntaxTree>): Comparison
    decreases a, 0
  {
    match (a, b)
    case (None, None) => Same
    case (Some(t), Some(u)) => AstEq(t, u)
    case _ => AttributeError
  }

  // ---------------------------------------------------------------------
  // Properties of equality
  // ---------------------------------------------------------------------

  /** Every node compares equal to itself (so identity short-cuts in list comparison change nothing). */
  lemma {:induction false} ExpressionEqReflexive(e: Expression)
    ensures ExpressionEq(e, e) == Same
    decreases e
  {
    match e
    case Word(_, t) => AstEqReflexive(t);
    case DoLoopStatement(t) => AstEqReflexive(t);
    case DoPlusLoopStatement(t) => AstEqReflexive(t);
    case BeginUntilStatement(t) => AstEqReflexive(t);
    case BeginAgainStatement(t) => AstEqReflexive(t);
    case IfStatement(t, f) =>
      AstEqReflexive(t);
      if f.Some? {
        AstEqReflexive(f.value);
      }
    case _ =>
  }

  lemma {:induction false} AstEqReflexive(a: AbstractSyntaxTree)
    ensures AstEq(a, a) == Same
    decreases a
  {
    ItemsEqReflexive(a.expressions);
  }

  lemma {:induction false} ItemsEqReflexive(xs: seq<Expression>)
    ensures ItemsEq(xs, xs) == Same
    decreases xs
  {
    if xs != [] {
      ExpressionEqReflexive(xs[0]);
      ItemsEqReflexive(xs[1..]);
    }
  }

  /** Two trees are equal exactly when their lists have one length and every pair of elements is equal. */
  lemma AstEqElementwise(a: AbstractSyntaxTree, b: AbstractSyntaxTree)
    ensures AstEq(a, b) == Same <==>
      |a.expressions| == |b.expressions| &&
      forall i :: 0 <= i < |a.expressions| ==> ExpressionEq(a.expressions[i], b.expressions[i]) == Same
  {
    if |a.expressions| == |b.expressions| {
      ItemsEqElementwise(a.expressions, b.expressions);
    }
  }

  lemma {:induction false} ItemsEqElementwise(xs: seq<Expression>, ys: seq<Expression>)
    requires |xs| == |ys|
    ensures ItemsEq(xs, ys) == Same <==> forall i :: 0 <= i < |xs| ==> ExpressionEq(xs[i], ys[i]) == Same
    decreases xs
  {
    if xs != [] {
      ItemsEqElementwise(xs[1..], ys[1..]);
      if ExpressionEq(xs[0], ys[0]) == Same {
        assert forall i :: 1 <= i < |xs| ==> xs[i] == xs[1..][i - 1] && ys[i] == ys[1..][i - 1];
      }
    }
  }

  /** A word equals another word exactly when both the names and the bodies are equal. */
  lemma WordEqualityComparesNameAndBody(n: string, t: AbstractSyntaxTree, m: string, u: AbstractSyntaxTree)
    ensures ExpressionEq(Word(n, t), Word(m, u)) == Same <==> n == m && AstEq(t, u) == Same
  {
  }

  /** Two conditionals are equal exactly when both branches are equal. */
  lemma IfEqualityComparesBothBranches(t: AbstractSyntaxTree, f: Option<AbstractSyntaxTree>,
                                       u: AbstractSyntaxTree, g: Option<AbstractSyntaxTree>)
    ensures ExpressionEq(IfStatement(t, f), IfStatement(u, g)) == Same <==>
      AstEq(t, u) == Same && OptionalAstEq(f, g) == Same
  {
  }

  /**
   * Equality never looks at the node's kind: the four loop forms over one
   * body all compare equal, although they are different nodes.
   */
  lemma LoopKindsCompareEqual(body: AbstractSyntaxTree)
    ensures ExpressionEq(DoLoopStatement(body), DoPlusLoopStatement(body)) == Same
    ensures ExpressionEq(DoPlusLoopStatement(body), DoLoopStatement(body)) == Same
    ensures ExpressionEq(BeginUntilStatement(body), BeginAgainStatement(body)) == Same
    ensures ExpressionEq(BeginAgainStatement(body), DoLoopStatement(body)) == Same
    ensures DoLoopStatement(body) != DoPlusLoopStatement(body)
  {
    AstEqReflexive(body);
  }

  /**
   * The same blindness to kind across the other shared fields: a literal
   * equals a print string of the same text, and a name-only node equals a
   * word of that name, though the word's own `__eq__` then fails on the
   * missing `ast` field, so equality is not symmetric.
   */
  lemma SharedFieldsCompareAcrossKinds(s: string, t: AbstractSyntaxTree)
    ensures ExpressionEq(Literal(s), PrintString(s)) == Same
    ensures ExpressionEq(VariableDeclaration(s), ConstantDeclaration(s)) == Same
    ensures ExpressionEq(VariableDeclaration(s), Word(s, t)) == Same
    ensures ExpressionEq(Word(s, t), VariableDeclaration(s)) == AttributeError
  {
  }
}
