/**
 * The earlier syntax-tree module: numbers and arithmetic operators that
 * print their own EWVM text, and a program that prints its expressions
 * one per line. There is no visitor here; each node's `evaluate` returns
 * its instruction directly.
 */
module EarlyAst {
  import opened Common
  import opened Syntax
  import opened EwvmLowering

  datatype Node = Number(number: int) | Operator(operatorType: OperatorType)

  datatype Tree = Tree(expressions: seq<Node>)

  /** `Number.evaluate` and `Operator.evaluate`. */
  function EvaluateNode(e: Node): Result<string, Failure> {
    match e
    case Number(n) => Ok("pushi " + IntToString(n))
    case Operator(t) =>
      match t
      case Plus => Ok("add")
      case Minus => Ok("sub")
      case Times => Ok("mul")
      case Divide => Ok("div")
      case Exp => Err(NotImplementedError)
      case Mod => Ok("mod")
      case SlashMod => Err(NotImplementedError)
  }

  /** The list comprehension: every expression in order; the first that raises ends it. */
  function EvaluateAll(es: seq<Node>): (r: Result<seq<string>, Failure>)
    ensures r.Ok? ==> |r.value| == |es|
  {
    if es == [] then Ok([])
    else match EvaluateNode(es[0])
      case Err(f) => Err(f)
      case Ok(line) =>
        match EvaluateAll(es[1..])
        case Err(f) => Err(f)
        case Ok(lines) => Ok([line] + lines)
  }

  /** `"\n".join(parts)`. */
  function Join(parts: seq<string>): string {
    if parts == [] then ""
    else if |parts| == 1 then parts[0]
    else parts[0] + "\n" + Join(parts[1..])
  }

  /** `AbstractSyntaxTree.evaluate`: the expressions' text, one per line. */
  function EvaluateTree(t: Tree): Result<string, Failure> {
    match EvaluateAll(t.expressions)
    case Err(f) => Err(f)
    case Ok(lines) => Ok(Join(lines))
  }

  /** `text.split("\n")`: the pieces between newlines; never empty. */
  function Split(text: string): (r: seq<string>)
    ensures |r| >= 1
  {
    if text == [] then [""]
    else
      var rest := Split(text[1..]);
      if text[0] == '\n' then [""] + rest else [[text[0]] + rest[0]] + rest[1..]
  }

  // ---------------------------------------------------------------------
  // Properties
  // ---------------------------------------------------------------------

  /** A number prints as `pushi ` and a decimal that reads back as the number. */
  lemma NumberPrintsItsValue(n: int)
    ensures var r := EvaluateNode(Node.Number(n));
      r.Ok? && |r.value| > 6 && r.value[..6] == "pushi " && ParseInt(r.value[6..]) == Some(n)
  {
    var text := "pushi " + IntToString(n);
    assert text[6..] == IntToString(n);
    ParseIntToString(n);
  }

  /** The operator table agrees, entry by entry and error by error, with the later code generator's. */
  lemma OperatorTableUnchanged(t: OperatorType)
    ensures EvaluateNode(Node.Operator(t)).Err? <==> VisitOperator(t).Err?
    ensures EvaluateNode(Node.Operator(t)).Err? ==> EvaluateNode(Node.Operator(t)).error == NotImplementedError
    ensures EvaluateNode(Node.Operator(t)).Ok? ==> VisitOperator(t).value == [Op(EvaluateNode(Node.Operator(t)).value)]
  {
  }

  /** No instruction printed by a node holds a newline, and none is empty. */
  lemma NodeTextIsOneLine(e: Node)
    ensures EvaluateNode(e).Ok? ==> EvaluateNode(e).value != "" && '\n' !in EvaluateNode(e).value
  {
    if e.Number? {
      var d := IntToString(e.number);
      assert '\n' !in d by {
        if e.number < 0 {
          assert d == "-" + NatToString(-e.number);
          NatToStringAllDigits(-e.number);
        } else {
          NatToStringAllDigits(e.number);
        }
      }
    }
  }

  lemma NatToStringAllDigits(n: nat)
    ensures '\n' !in NatToString(n)
  {
    var s := NatToString(n);
    ParseNatToString(n);
    assert AllDigits(s);
    assert forall k | 0 <= k < |s| :: s[k] != '\n';
  }

  /** A tree evaluates without error exactly when it holds no `**` and no `/MOD`. */
  lemma {:induction false} EvaluationFailsOnlyOnUnsupported(es: seq<Node>)
    ensures EvaluateAll(es).Ok? <==>
      forall k :: 0 <= k < |es| ==> es[k] != Node.Operator(Exp) && es[k] != Node.Operator(SlashMod)
    decreases es
  {
    if es != [] {
      EvaluationFailsOnlyOnUnsupported(es[1..]);
      assert forall k :: 1 <= k < |es| ==> es[k] == es[1..][k - 1];
    }
  }

  /** Splitting text with no newline in front of the rest glues it to the rest's first piece. */
  lemma {:induction false} SplitPrefix(p: string, rest: string)
    requires '\n' !in p
    ensures Split(p + rest) == [p + Split(rest)[0]] + Split(rest)[1..]
    decreases |p|
  {
    if p == [] {
      var r := Split(rest);
      assert p + rest == rest && p + r[0] == r[0];
      assert [r[0]] + r[1..] == r;
    } else {
      assert (p + rest)[0] == p[0] && (p + rest)[1..] == p[1..] + rest;
      SplitPrefix(p[1..], rest);
      assert [p[0]] + (p[1..] + Split(rest)[0]) == p + Split(rest)[0];
    }
  }

  /** Splitting the joined lines gives the lines back, when none holds a newline. */
  lemma {:induction false} SplitJoin(parts: seq<string>)
    requires |parts| >= 1
    requires forall k :: 0 <= k < |parts| ==> '\n' !in parts[k]
    ensures Split(Join(parts)) == parts
    decreases |parts|
  {
    if |parts| == 1 {
      SplitPrefix(parts[0], "");
      assert parts[0] + "" == parts[0];
      assert [parts[0]] == parts;
    } else {
      var rest := "\n" + Join(parts[1..]);
      SplitJoin(parts[1..]);
      assert Split(rest) == [""] + parts[1..] by {
        assert rest[0] == '\n' && rest[1..] == Join(parts[1..]);
      }
      assert parts[0] + "\n" + Join(parts[1..]) == parts[0] + rest;
      SplitPrefix(parts[0], rest);
      assert parts[0] + "" == parts[0];
      assert [parts[0]] + parts[1..] == parts;
    }
  }

  /** Every node's text lies on a line of its own: splitting a tree's output gives each expression's text. */
  lemma TreeTextSplitsBack(t: Tree)
    requires |t.expressions| >= 1
    ensures EvaluateTree(t).Ok? ==> Split(EvaluateTree(t).value) == EvaluateAll(t.expressions).value
  {
    if EvaluateTree(t).Ok? {
      var lines := EvaluateAll(t.expressions).value;
      EachLineIsOneNode(t.expressions);
      SplitJoin(lines);
    }
  }

  lemma {:induction false} EachLineIsOneNode(es: seq<Node>)
    ensures EvaluateAll(es).Ok? ==>
      forall k :: 0 <= k < |es| ==> EvaluateNode(es[k]).Ok? && EvaluateAll(es).value[k] == EvaluateNode(es[k]).value && '\n' !in EvaluateAll(es).value[k]
    decreases es
  {
    if es != [] && EvaluateAll(es).Ok? {
      NodeTextIsOneLine(es[0]);
      EachLineIsOneNode(es[1..]);
      assert forall k :: 1 <= k < |es| ==> es[k] == es[1..][k - 1];
    }
  }

  /** An empty program prints nothing. */
  lemma EmptyTreePrintsNothing()
    ensures EvaluateTree(Tree([])) == Ok("")
  {
  }

  // ---------------------------------------------------------------------
  // Equality
  // ---------------------------------------------------------------------

  /** `a.__eq__(b)`: the field of `a` read from `b`, which fails when `b` is the other kind. */
  function NodeEq(a: Node, b: Node): Comparison {
    match a
    case Number(n) => if b.Number? then FromBool(n == b.number) else AttributeError
    case Operator(t) => if b.Operator? then FromBool(t.Value() == b.operatorType.Value()) else AttributeError
  }

  /** `AbstractSyntaxTree.__eq__`: list equality, lengths first, then element by element. */
  function TreeEq(a: Tree, b: Tree): Comparison {
    if |a.expressions| != |b.expressions| then Differ else NodesEq(a.expressions, b.expressions)
  }

  function NodesEq(xs: seq<Node>, ys: seq<Node>): Comparison
    requires |xs| == |ys|
  {
    if xs == [] then Same
    else
      var head := NodeEq(xs[0], ys[0]);
      if head == Same then NodesEq(xs[1..], ys[1..]) else head
  }

  /** Equality is structural: two nodes are equal exactly when they are the same node. */
  lemma NodeEqIsStructural(a: Node, b: Node)
    ensures NodeEq(a, b) == Same <==> a == b
    ensures a.Number? == b.Number? ==> NodeEq(a, b) != AttributeError
  {
    if a.Operator? && b.Operator? {
      OperatorTypesCompareByValue(a.operatorType, b.operatorType);
    }
  }

  /** Two trees are equal exactly when they hold the same expressions in the same order. */
  lemma TreeEqIsStructural(a: Tree, b: Tree)
    ensures TreeEq(a, b) == Same <==> a == b
  {
    if |a.expressions| == |b.expressions| {
      NodesEqIsStructural(a.expressions, b.expressions);
    }
  }

  lemma {:induction false} NodesEqIsStructural(xs: seq<Node>, ys: seq<Node>)
    requires |xs| == |ys|
    ensures NodesEq(xs, ys) == Same <==> xs == ys
    decreases xs
  {
    if xs != [] {
      NodeEqIsStructural(xs[0], ys[0]);
      NodesEqIsStructural(xs[1..], ys[1..]);
      if xs[0] == ys[0] && xs[1..] == ys[1..] {
        assert xs == [xs[0]] + xs[1..] && ys == [ys[0]] + ys[1..];
      }
    }
  }
}
