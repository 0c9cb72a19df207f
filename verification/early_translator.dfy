/**
 * The earlier EWVM code generator: numbers, the five arithmetic
 * operators, word definitions and literals. A literal naming a user word
 * is replaced by the translation of the word's body, with no labels
 * around it; the only primitive is `.`. Names are used exactly as given.
 *
 * The syntax-tree module this generator was written against (with
 * `Function`, `Literal` and a visitor base class) is not part of this
 * model, so the generator carries its own node set here.
 */
module EarlyTranslator {
  import opened Common
  import Syntax
  import opened EwvmLowering
  import EarlyAst

  datatype Node =
    | Number(number: int)
    | Operator(operatorType: Syntax.OperatorType)
    | Function(name: string, ast: Program)
    | Literal(content: string)

  datatype Program = Program(expressions: seq<Node>)

  /** The generator's two dictionaries. */
  datatype Tables = Tables(predefinedFunctions: map<string, seq<string>>, userDefinedFunctions: map<string, Program>)

  function InitialTables(): Tables {
    Tables(map["." := ["writei"]], map[])
  }

  /** What a visitor returned or raised, and the tables afterwards. */
  datatype Outcome = Outcome(result: Result<seq<string>, Failure>, tables: Tables)

  /** `visit_operator`. */
  function OperatorLines(t: Syntax.OperatorType): Result<seq<string>, Failure> {
    match t
    case Plus => Ok(["add"])
    case Minus => Ok(["sub"])
    case Times => Ok(["mul"])
    case Divide => Ok(["div"])
    case Exp => Err(NotImplementedError)
    case Mod => Ok(["mod"])
    case SlashMod => Err(NotImplementedError)
  }

  /**
   * `expr.evaluate(translator)`. A word expansion spends one unit of
   * `fuel`; running out stands for Python's `RecursionError`.
   */
  function Eval(s: Tables, e: Node, fuel: nat): Outcome
    decreases fuel, e, 1
  {
    match e
    case Number(n) => Outcome(Ok(["pushi " + IntToString(n)]), s)
    case Operator(t) => Outcome(OperatorLines(t), s)
    case Function(name, ast) =>
      if name in s.userDefinedFunctions then
        Outcome(Err(TranslationError("Function " + name + " already defined")), s)
      else
        Outcome(Ok([]), s.(userDefinedFunctions := s.userDefinedFunctions[name := ast]))
    case Literal(_) => EvalLiteral(s, e, fuel)
  }

  /** `visit_literal`: a user word's body is translated in place; else the primitive; else an error. */
  function EvalLiteral(s: Tables, literal: Node, fuel: nat): Outcome
    requires literal.Literal?
    decreases fuel, literal, 0
  {
    var value := literal.content;
    if value in s.userDefinedFunctions then
      if fuel == 0 then Outcome(Err(RecursionLimit), s)
      else EvalProgram(s, s.userDefinedFunctions[value], fuel - 1)
    else if value in s.predefinedFunctions then Outcome(Ok(s.predefinedFunctions[value]), s)
    else Outcome(Err(TranslationError("Literal " + value + " not found")), s)
  }

  /** `translate`: every expression's lines, in order; the first exception ends it. */
  function EvalProgram(s: Tables, p: Program, fuel: nat): Outcome
    decreases fuel, p, 0
  {
    EvalSeq(s, p.expressions, fuel)
  }

  function EvalSeq(s: Tables, es: seq<Node>, fuel: nat): Outcome
    decreases fuel, es, 0
  {
    if es == [] then Outcome(Ok([]), s)
    else
      var first := Eval(s, es[0], fuel);
      if first.result.Err? then first
      else Prefixed(first.result.value, EvalSeq(first.tables, es[1..], fuel))
  }

  /** Lines already produced, in front of a later outcome unless it is an exception. */
  function Prefixed(lines: seq<string>, o: Outcome): Outcome {
    if o.result.Err? then o else Outcome(Ok(lines + o.result.value), o.tables)
  }

  lemma PrefixedNothing(o: Outcome)
    ensures Prefixed([], o) == o
  {
    if o.result.Ok? {
      assert [] + o.result.value == o.result.value;
    }
  }

  lemma PrefixedTwice(a: seq<string>, b: seq<string>, o: Outcome)
    ensures Prefixed(a, Prefixed(b, o)) == Prefixed(a + b, o)
  {
    if o.result.Ok? {
      assert a + (b + o.result.value) == (a + b) + o.result.value;
    }
  }

  class EarlyTranslator {
    var predefinedFunctions: map<string, seq<string>>
    var userDefinedFunctions: map<string, Program>

    function State(): Tables
      reads this
    {
      Tables(predefinedFunctions, userDefinedFunctions)
    }

    constructor ()
      ensures State() == InitialTables()
    {
      predefinedFunctions := map["." := ["writei"]];
      userDefinedFunctions := map[];
    }

    method Evaluate(e: Node, fuel: nat) returns (r: Result<seq<string>, Failure>)
      modifies this
      ensures Outcome(r, State()) == Eval(old(State()), e, fuel)
      decreases fuel, e, 1
    {
      match e
      case Number(n) => r := Ok(["pushi " + IntToString(n)]);
      case Operator(t) => r := OperatorLines(t);
      case Function(_, _) => r := VisitFunction(e);
      case Literal(_) => r := VisitLiteral(e, fuel);
    }

    /** `visit_function`: a second definition of a name is an error and changes nothing. */
    method VisitFunction(word: Node) returns (r: Result<seq<string>, Failure>)
      requires word.Function?
      modifies this
      ensures Outcome(r, State()) == Eval(old(State()), word, 0)
    {
      if word.name in userDefinedFunctions {
        return Err(TranslationError("Function " + word.name + " already defined"));
      }
      userDefinedFunctions := userDefinedFunctions[word.name := word.ast];
      return Ok([]);
    }

    method VisitLiteral(literal: Node, fuel: nat) returns (r: Result<seq<string>, Failure>)
      requires literal.Literal?
      modifies this
      ensures Outcome(r, State()) == EvalLiteral(old(State()), literal, fuel)
      decreases fuel, literal, 0
    {
      var value := literal.content;
      if value in userDefinedFunctions {
        if fuel == 0 {
          return Err(RecursionLimit);
        }
        r := Translate(userDefinedFunctions[value], fuel - 1);
        return;
      }
      if value in predefinedFunctions {
        return Ok(predefinedFunctions[value]);
      }
      return Err(TranslationError("Literal " + value + " not found"));
    }

    /** `translate`: the comprehension, as a loop that appends each expression's lines. */
    method Translate(p: Program, fuel: nat) returns (r: Result<seq<string>, Failure>)
      modifies this
      ensures Outcome(r, State()) == EvalProgram(old(State()), p, fuel)
      decreases fuel, p, 0
    {
      var es := p.expressions;
      var lines: seq<string> := [];
      var k := 0;
      assert es[k..] == es;
      PrefixedNothing(EvalSeq(State(), es, fuel));
      while k < |es|
        invariant 0 <= k <= |es|
        invariant EvalSeq(old(State()), es, fuel) == Prefixed(lines, EvalSeq(State(), es[k..], fuel))
      {
        assert es[k..][0] == es[k] && es[k..][1..] == es[k + 1..];
        var part := Evaluate(es[k], fuel);
        if part.Err? {
          return part;
        }
        PrefixedTwice(lines, part.value, EvalSeq(State(), es[k + 1..], fuel));
        lines := lines + part.value;
        k := k + 1;
      }
      assert lines + [] == lines;
      r := Ok(lines);
    }
  }

  // ---------------------------------------------------------------------
  // Properties
  // ---------------------------------------------------------------------

  /** Translating `a + b` translates `a`, then `b` from the tables `a` left; the lines concatenate. */
  lemma {:induction false} TranslationConcatenates(s: Tables, a: seq<Node>, b: seq<Node>, fuel: nat)
    ensures EvalSeq(s, a + b, fuel) ==
      var first := EvalSeq(s, a, fuel);
      if first.result.Err? then first else Prefixed(first.result.value, EvalSeq(first.tables, b, fuel))
    decreases a
  {
    if a == [] {
      assert a + b == b;
      PrefixedNothing(EvalSeq(s, b, fuel));
    } else {
      assert (a + b)[0] == a[0] && (a + b)[1..] == a[1..] + b;
      var head := Eval(s, a[0], fuel);
      if head.result.Ok? {
        TranslationConcatenates(head.tables, a[1..], b, fuel);
        var mid := EvalSeq(head.tables, a[1..], fuel);
        if mid.result.Ok? {
          PrefixedTwice(head.result.value, mid.result.value, EvalSeq(mid.tables, b, fuel));
        }
      }
    }
  }

  /** The primitive table is never changed, and a registered word is never replaced. */
  ghost predicate TablesKept(s: Tables, t: Tables) {
    t.predefinedFunctions == s.predefinedFunctions &&
    forall name | name in s.userDefinedFunctions ::
      name in t.userDefinedFunctions && t.userDefinedFunctions[name] == s.userDefinedFunctions[name]
  }

  lemma {:induction false} EvalKeepsTables(s: Tables, e: Node, fuel: nat)
    ensures TablesKept(s, Eval(s, e, fuel).tables)
    decreases fuel, e, 1
  {
    if e.Literal? && e.content in s.userDefinedFunctions && fuel > 0 {
      assert Eval(s, e, fuel) == EvalLiteral(s, e, fuel);
      assert EvalLiteral(s, e, fuel) == EvalProgram(s, s.userDefinedFunctions[e.content], fuel - 1);
      SeqKeepsTables(s, s.userDefinedFunctions[e.content].expressions, fuel - 1);
    }
  }

  lemma {:induction false} SeqKeepsTables(s: Tables, es: seq<Node>, fuel: nat)
    ensures TablesKept(s, EvalSeq(s, es, fuel).tables)
    decreases fuel, es, 0
  {
    if es != [] {
      var first := Eval(s, es[0], fuel);
      EvalKeepsTables(s, es[0], fuel);
      if first.result.Ok? {
        SeqKeepsTables(first.tables, es[1..], fuel);
      }
    }
  }

  /** Whatever a program does, `.` still prints an integer and no earlier word has changed meaning. */
  lemma ProgramKeepsTables(s: Tables, p: Program, fuel: nat)
    ensures TablesKept(s, EvalProgram(s, p, fuel).tables)
  {
    SeqKeepsTables(s, p.expressions, fuel);
  }

  /** A first definition registers the body and emits nothing; a second raises and changes nothing. */
  lemma DefinitionRules(s: Tables, name: string, body: Program)
    ensures var o := Eval(s, Function(name, body), 0);
      if name in s.userDefinedFunctions then
        o.result == Err(TranslationError("Function " + name + " already defined")) && o.tables == s
      else
        o.result == Ok([]) && name in o.tables.userDefinedFunctions &&
        o.tables.userDefinedFunctions[name] == body && o.tables.predefinedFunctions == s.predefinedFunctions
  {
  }

  /** A user word is looked up before the primitives, even when it shadows `.`. */
  lemma UserWordsShadowPrimitives(s: Tables, name: string, fuel: nat)
    requires name in s.userDefinedFunctions && name in s.predefinedFunctions
    requires fuel > 0
    ensures Eval(s, Literal(name), fuel) == EvalProgram(s, s.userDefinedFunctions[name], fuel - 1)
  {
  }

  /** From a new translator, only `.` and the defined words resolve; any other name raises. */
  lemma UnknownLiteral(s: Tables, name: string, fuel: nat)
    requires name !in s.userDefinedFunctions && name !in s.predefinedFunctions
    ensures Eval(s, Literal(name), fuel) == Outcome(Err(TranslationError("Literal " + name + " not found")), s)
  {
  }

  /** `.` outside any user word prints the integer on top of the stack. */
  lemma DotPrintsAnInteger(fuel: nat)
    ensures Eval(InitialTables(), Literal("."), fuel) == Outcome(Ok(["writei"]), InitialTables())
  {
  }

  /** A word's expansion is its body's text and nothing more: no labels surround it. */
  lemma DefinitionExample()
    ensures var p := Program([Function("two", Program([Number(2)])), Literal("two")]);
      EvalProgram(InitialTables(), p, 1).result == Ok(["pushi 2"])
  {
    var s := InitialTables();
    var word := Function("two", Program([Number(2)]));
    var use := Literal("two");
    var t := s.(userDefinedFunctions := map["two" := Program([Number(2)])]);
    assert IntToString(2) == "2" && "pushi " + "2" == "pushi 2";
    assert [Number(2)][0] == Number(2) && [Number(2)][1..] == [];
    assert EvalSeq(t, [Number(2)], 0).result == Ok(["pushi 2"] + []);
    assert ["pushi 2"] + [] == ["pushi 2"];
    assert Eval(t, use, 1).result == Ok(["pushi 2"]);
    assert [word, use][0] == word && [word, use][1..] == [use];
    assert [use][0] == use && [use][1..] == [];
    assert EvalSeq(t, [use], 1).result == Ok(["pushi 2"] + []);
    assert [] + ["pushi 2"] == ["pushi 2"];
  }

  // ---------------------------------------------------------------------
  // Agreement with the earlier syntax-tree module
  // ---------------------------------------------------------------------

  /** The node of the earlier syntax-tree module that a number or operator here corresponds to. */
  function AsAstNode(e: Node): EarlyAst.Node
    requires e.Number? || e.Operator?
  {
    if e.Number? then EarlyAst.Node.Number(e.number) else EarlyAst.Node.Operator(e.operatorType)
  }

  /** A number or an operator: one line here, and that line is the node's own `evaluate` text there. */
  lemma NodeAgreesWithAst(s: Tables, e: Node, fuel: nat)
    requires e.Number? || e.Operator?
    ensures var o := Eval(s, e, fuel); var t := EarlyAst.EvaluateNode(AsAstNode(e));
      o.tables == s && o.result.Ok? == t.Ok? &&
      (o.result.Ok? ==> o.result.value == [t.value]) &&
      (o.result.Err? ==> o.result.error == t.error)
  {
  }

  /** Programs of numbers and operators only. */
  ghost predicate Arithmetic(es: seq<Node>) {
    forall k :: 0 <= k < |es| ==> es[k].Number? || es[k].Operator?
  }

  function AsAstNodes(es: seq<Node>): (r: seq<EarlyAst.Node>)
    requires Arithmetic(es)
    ensures |r| == |es|
  {
    if es == [] then [] else [AsAstNode(es[0])] + AsAstNodes(es[1..])
  }

  /**
   * For arithmetic, the generator's lines are exactly the syntax-tree
   * module's per-node texts, and the tree's printed program is those
   * lines joined by newlines.
   */
  lemma {:induction false} ArithmeticAgreesWithAst(s: Tables, es: seq<Node>, fuel: nat)
    requires Arithmetic(es)
    ensures var o := EvalSeq(s, es, fuel); var t := EarlyAst.EvaluateAll(AsAstNodes(es));
      o.tables == s && o.result.Ok? == t.Ok? &&
      (o.result.Ok? ==> o.result.value == t.value &&
                        EarlyAst.EvaluateTree(EarlyAst.Tree(AsAstNodes(es))) == Ok(EarlyAst.Join(o.result.value)))
    decreases es
  {
    if es != [] {
      NodeAgreesWithAst(s, es[0], fuel);
      assert Arithmetic(es[1..]) by {
        assert forall k :: 0 <= k < |es[1..]| ==> es[1..][k] == es[k + 1];
      }
      ArithmeticAgreesWithAst(s, es[1..], fuel);
      var nodes := AsAstNodes(es);
      assert nodes[0] == AsAstNode(es[0]) && nodes[1..] == AsAstNodes(es[1..]);
    }
  }
}
