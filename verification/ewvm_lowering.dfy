/**
 * The pure half of the EWVM code generator: the instruction-line
 * vocabulary, the label families and their text, the operator tables and
 * the fixed pieces of the two counted loops.
 *
 * Emitted lines are kept structured: a label definition or a jump names
 * its `Label`, and `Render` gives the exact text the generator emits
 * (`jz else3`, `endif3:`, `endfunctionsquare0:`, ...).
 */
module EwvmLowering {
  import opened Common
  import opened Syntax

  // ---------------------------------------------------------------------
  // Lines and labels
  // ---------------------------------------------------------------------

  /** The label families, each numbered by one of the session counters. */
  datatype Label =
    | Else(n: nat)
    | EndIf(n: nat)
    | StartWhile(n: nat)
    | EndWhile(n: nat)
    | IfReverseLoop(n: nat)
    | ElseReverseLoop(n: nat)
    | FunctionStart(name: string, k: nat)
    | FunctionEnd(name: string, k: nat)
  {
    predicate IsIfLabel() { Else? || EndIf? }
    predicate IsLoopLabel() { StartWhile? || EndWhile? || IfReverseLoop? || ElseReverseLoop? }
    predicate IsFunctionLabel() { FunctionStart? || FunctionEnd? }
  }

  /** One emitted instruction line. */
  datatype Line =
    | Op(text: string)        // an opcode with its operands, or a `pushs` string
    | Define(defined: Label)  // `label:`
    | Jz(target: Label)       // `jz label`
    | Jump(target: Label)     // `jump label`
  {
    predicate IsBranch() { Jz? || Jump? }
  }

  /** The name `f"function{value}{counter}"` of a word expansion. */
  function FunctionLabelText(name: string, k: nat): string {
    "function" + name + NatToString(k)
  }

  function LabelText(l: Label): string {
    match l
    case Else(n) => "else" + NatToString(n)
    case EndIf(n) => "endif" + NatToString(n)
    case StartWhile(n) => "startwhile" + NatToString(n)
    case EndWhile(n) => "endwhile" + NatToString(n)
    case IfReverseLoop(n) => "ifreverseloop" + NatToString(n)
    case ElseReverseLoop(n) => "elsereverseloop" + NatToString(n)
    case FunctionStart(name, k) => FunctionLabelText(name, k)
    case FunctionEnd(name, k) => "end" + FunctionLabelText(name, k)
  }

  function LineText(line: Line): string {
    match line
    case Op(text) => text
    case Define(l) => LabelText(l) + ":"
    case Jz(l) => "jz " + LabelText(l)
    case Jump(l) => "jump " + LabelText(l)
  }

  /** The text the generator returns: one string per line, in order. */
  function Render(lines: seq<Line>): (r: seq<string>)
    ensures |r| == |lines|
    ensures forall k :: 0 <= k < |lines| ==> r[k] == LineText(lines[k])
  {
    if lines == [] then [] else [LineText(lines[0])] + Render(lines[1..])
  }

  /** Rendering distributes over concatenation. */
  lemma RenderAppend(a: seq<Line>, b: seq<Line>)
    ensures Render(a + b) == Render(a) + Render(b)
  {
    assert |Render(a + b)| == |Render(a) + Render(b)|;
    forall k | 0 <= k < |a + b|
      ensures Render(a + b)[k] == (Render(a) + Render(b))[k]
    {
    }
  }

  /** Two word expansions can share a label text: `function{name}{k}` leaves no boundary between name and counter. */
  lemma FunctionLabelsCanCollide()
    ensures FunctionStart("a1", 2) != FunctionStart("a", 12)
    ensures LabelText(FunctionStart("a1", 2)) == LabelText(FunctionStart("a", 12))
  {
    assert NatToString(2) == "2";
    assert NatToString(12) == "12" by {
      assert NatToString(1) == "1";
    }
  }

  /** The labels of the counter-numbered families render distinctly. */
  lemma NumberedLabelTextInjective(a: Label, b: Label)
    requires !a.IsFunctionLabel() && !b.IsFunctionLabel()
    ensures LabelText(a) == LabelText(b) ==> a == b
  {
    if LabelText(a) == LabelText(b) {
      var pa, pb := FamilyPrefix(a), FamilyPrefix(b);
      LeadingNonDigitsOf(pa, NatToString(a.n));
      LeadingNonDigitsOf(pb, NatToString(b.n));
      // The family prefixes all have different lengths.
      assert |pa| == |pb|;
      assert NatToString(a.n) == LabelText(a)[|pa|..];
      assert NatToString(b.n) == LabelText(b)[|pb|..];
      NatToStringInjective(a.n, b.n);
    }
  }

  /** The letters in front of a numbered label's counter. */
  function FamilyPrefix(l: Label): (p: string)
    requires !l.IsFunctionLabel()
    ensures LabelText(l) == p + NatToString(l.n)
    ensures forall i :: 0 <= i < |p| ==> !IsDigit(p[i])
  {
    match l
    case Else(_) => "else"
    case EndIf(_) => "endif"
    case StartWhile(_) => "startwhile"
    case EndWhile(_) => "endwhile"
    case IfReverseLoop(_) => "ifreverseloop"
    case ElseReverseLoop(_) => "elsereverseloop"
  }

  /** How many characters precede the first digit. */
  function LeadingNonDigits(s: string): nat {
    if s == [] || IsDigit(s[0]) then 0 else 1 + LeadingNonDigits(s[1..])
  }

  lemma {:induction false} LeadingNonDigitsOf(p: string, d: string)
    requires forall i :: 0 <= i < |p| ==> !IsDigit(p[i])
    requires |d| >= 1 && IsDigit(d[0])
    ensures LeadingNonDigits(p + d) == |p|
  {
    if p != [] {
      assert (p + d)[1..] == p[1..] + d;
      LeadingNonDigitsOf(p[1..], d);
    }
  }

  // ---------------------------------------------------------------------
  // The errors the generator raises
  // ---------------------------------------------------------------------

  datatype Failure =
    | TranslationError(message: string)   // duplicate word, unknown literal
    | NotImplementedError                  // `**` and `/MOD`
    | TypeError                            // a literal whose table entry holds `None`
    | Unsupported(kind: string)            // a node the generator has no visitor for
    | RecursionLimit                       // word expansion deeper than the fuel allows

  // ---------------------------------------------------------------------
  // Numbers and operators
  // ---------------------------------------------------------------------

  /** `visit_number`: one `pushi` line whose operand reads back as the number. */
  function VisitNumber(n: int): (r: seq<Line>)
    ensures |r| == 1 && r[0].Op? && |r[0].text| > 6 && r[0].text[..6] == "pushi "
    ensures ParseInt(r[0].text[6..]) == Some(n)
  {
    var text := "pushi " + IntToString(n);
    assert text[6..] == IntToString(n);
    ParseIntToString(n);
    [Op(text)]
  }

  /** `visit_operator`: one opcode for the five supported operators; `**` and `/MOD` raise. */
  function VisitOperator(t: OperatorType): (r: Result<seq<Line>, Failure>)
    ensures r.Err? <==> t == Exp || t == SlashMod
    ensures r.Err? ==> r.error == NotImplementedError
    ensures r.Ok? ==> |r.value| == 1 && r.value[0].Op?
  {
    match t
    case Plus => Ok([Op("add")])
    case Minus => Ok([Op("sub")])
    case Times => Ok([Op("mul")])
    case Divide => Ok([Op("div")])
    case Exp => Err(NotImplementedError)
    case Mod => Ok([Op("mod")])
    case SlashMod => Err(NotImplementedError)
  }

  /** Reads an arithmetic opcode back as the operator that lowers to it. */
  function OperatorOfOpcode(text: string): Option<OperatorType> {
    if text == "add" then Some(Plus)
    else if text == "sub" then Some(Minus)
    else if text == "mul" then Some(Times)
    else if text == "div" then Some(Divide)
    else if text == "mod" then Some(Mod)
    else None
  }

  /** Each supported operator has its own opcode: the opcode determines the operator. */
  lemma OperatorLoweringInvertible(t: OperatorType)
    ensures VisitOperator(t).Ok? ==> OperatorOfOpcode(VisitOperator(t).value[0].text) == Some(t)
  {
  }

  /** `visit_comparison_operator`: the eleven comparisons and their fixed code. */
  function VisitComparisonOperator(t: ComparisonOperatorType): (r: seq<Line>)
    ensures 1 <= |r| <= 2
    ensures forall k :: 0 <= k < |r| ==> r[k].Op?
  {
    match t
    case Equals => [Op("equal")]
    case NotEquals => [Op("equal"), Op("not")]
    case LessThan => [Op("inf")]
    case LessThanOrEqualTo => [Op("infeq")]
    case GreaterThan => [Op("sup")]
    case GreaterThanOrEqualTo => [Op("supeq")]
    case ZeroEquals => [Op("not")]
    case ZeroLessThan => [Op("pushi 0"), Op("inf")]
    case ZeroLessThanOrEqualTo => [Op("pushi 0"), Op("infeq")]
    case ZeroGreaterThan => [Op("pushi 0"), Op("sup")]
    case ZeroGreaterThanOrEqualTo => [Op("pushi 0"), Op("supeq")]
  }

  /** The two-operand comparison a zero-comparison tests against. */
  function AgainstZero(t: ComparisonOperatorType): Option<ComparisonOperatorType> {
    match t
    case ZeroLessThan => Some(LessThan)
    case ZeroLessThanOrEqualTo => Some(LessThanOrEqualTo)
    case ZeroGreaterThan => Some(GreaterThan)
    case ZeroGreaterThanOrEqualTo => Some(GreaterThanOrEqualTo)
    case _ => None
  }

  /**
   * The table's structure: the six two-operand comparisons are EWVM's
   * `equal`, `inf`, `infeq`, `sup` and `supeq` (`<>` being `equal` then
   * `not`), `0=` is a bare `not`, and each of the other zero-comparisons
   * pushes 0 and then runs its two-operand form.
   */
  lemma ComparisonTableStructure(t: ComparisonOperatorType)
    ensures VisitComparisonOperator(Equals) == [Op("equal")]
    ensures VisitComparisonOperator(LessThan) == [Op("inf")]
    ensures VisitComparisonOperator(LessThanOrEqualTo) == [Op("infeq")]
    ensures VisitComparisonOperator(GreaterThan) == [Op("sup")]
    ensures VisitComparisonOperator(GreaterThanOrEqualTo) == [Op("supeq")]
    ensures VisitComparisonOperator(NotEquals) == VisitComparisonOperator(Equals) + [Op("not")]
    ensures VisitComparisonOperator(ZeroEquals) == [Op("not")]
    ensures AgainstZero(t).Some? ==>
      VisitComparisonOperator(t) == [Op("pushi 0")] + VisitComparisonOperator(AgainstZero(t).value)
  {
  }

  /** Distinct comparisons lower to distinct code. */
  lemma ComparisonLoweringInjective(a: ComparisonOperatorType, b: ComparisonOperatorType)
    ensures VisitComparisonOperator(a) == VisitComparisonOperator(b) ==> a == b
  {
  }

  // ---------------------------------------------------------------------
  // The fixed pieces of `DO ... LOOP` and `DO ... +LOOP`
  // ---------------------------------------------------------------------

  /** `pushst n`: the heap slot of loop `n`. */
  function Pushst(n: nat): Line {
    Op("pushst " + NatToString(n))
  }

  /**
   * Every slot access, label and branch in `lines` belongs to loop `n`:
   * the loop's pieces never mention another loop's slot or labels.
   */
  predicate OwnedByLoop(lines: seq<Line>, n: nat) {
    forall line | line in lines :: LineOwnedByLoop(line, n)
  }

  predicate LineOwnedByLoop(line: Line, n: nat) {
    match line
    case Op(text) => IsSlotAccess(text) ==> line == Pushst(n)
    case Define(l) => l.IsLoopLabel() && l.n == n
    case Jz(l) => l.IsLoopLabel() && l.n == n
    case Jump(l) => l.IsLoopLabel() && l.n == n
  }

  /** The text starts with `pushst `. */
  predicate IsSlotAccess(text: string) {
    |text| >= 7 && text[0] == 'p' && text[1] == 'u' && text[2] == 's' && text[3] == 'h' &&
    text[4] == 's' && text[5] == 't' && text[6] == ' '
  }

  function LoopInitialization(n: nat): seq<Line>
  {
    [Op("alloc 2"), Op("swap"), Op("store 1"), Pushst(n), Op("swap"), Op("store 0")]
  }

  function PlusLoopInitialization(n: nat): seq<Line>
  {
    [Op("dup 1"), Op("alloc 3"), Op("swap"), Op("store 1"), Pushst(n), Op("swap"), Op("store 2"),
     Pushst(n), Op("swap"), Op("store 0")]
  }

  /** `startwhile{n}:` then the ascending test `index > limit`, leaving at `endwhile{n}`. */
  function LoopCondition(n: nat): seq<Line>
  {
    [Define(StartWhile(n)), Pushst(n), Op("load 0"), Pushst(n), Op("load 1"), Op("sup"),
     Jz(EndWhile(n))]
  }

  /** The +LOOP test branches on the sign of the stored increment before comparing. */
  function PlusLoopCondition(n: nat): seq<Line>
  {
    [Define(StartWhile(n)), Pushst(n), Op("load 0"), Op("dup 1"), Pushst(n), Op("load 2"), Op("sup"),
     Jz(IfReverseLoop(n)),
     Pushst(n), Op("load 1"), Op("sup"), Jump(ElseReverseLoop(n)),
     Define(IfReverseLoop(n)),
     Pushst(n), Op("load 1"), Op("inf"),
     Define(ElseReverseLoop(n)),
     Jz(EndWhile(n))]
  }

  /** Index += 1, back to `startwhile{n}`, then `endwhile{n}:` and the slot is popped. */
  function LoopEnd(n: nat): seq<Line>
  {
    [Pushst(n), Op("load 1"), Op("pushi 1"), Op("add"), Pushst(n), Op("swap"), Op("store 1"),
     Jump(StartWhile(n)), Define(EndWhile(n)), Op("popst")]
  }

  /** As `LoopEnd`, but adding the increment that is on the stack instead of 1. */
  function PlusLoopEnd(n: nat): seq<Line>
  {
    [Pushst(n), Op("load 1"), Op("add"), Pushst(n), Op("swap"), Op("store 1"),
     Jump(StartWhile(n)), Define(EndWhile(n)), Op("popst")]
  }

  /**
   * The fixed pieces of loop `n` touch only loop `n`'s heap slot and
   * labels, so loops nested in its body (which take later ids) cannot
   * disturb its counter.
   */
  lemma LoopPiecesOwnedByLoop(n: nat)
    ensures OwnedByLoop(LoopInitialization(n), n) && OwnedByLoop(PlusLoopInitialization(n), n)
    ensures OwnedByLoop(LoopCondition(n), n) && OwnedByLoop(PlusLoopCondition(n), n)
    ensures OwnedByLoop(LoopEnd(n), n) && OwnedByLoop(PlusLoopEnd(n), n)
  {
    InitializationsOwned(n);
    ConditionOwned(n);
    PlusConditionOwned(n);
    EndsOwned(n);
  }

  lemma InitializationsOwned(n: nat)
    ensures OwnedByLoop(LoopInitialization(n), n) && OwnedByLoop(PlusLoopInitialization(n), n)
  {
    var a := LoopInitialization(n);
    assert forall k | 0 <= k < |a| :: LineOwnedByLoop(a[k], n);
    var b := PlusLoopInitialization(n);
    assert forall k | 0 <= k < |b| :: LineOwnedByLoop(b[k], n);
  }

  lemma ConditionOwned(n: nat)
    ensures OwnedByLoop(LoopCondition(n), n)
  {
    var c := LoopCondition(n);
    assert forall k | 0 <= k < |c| :: LineOwnedByLoop(c[k], n);
  }

  lemma PlusConditionOwned(n: nat)
    ensures OwnedByLoop(PlusLoopCondition(n), n)
  {
    var c := PlusLoopCondition(n);
    assert forall k | 0 <= k < |c| :: LineOwnedByLoop(c[k], n);
  }

  lemma EndsOwned(n: nat)
    ensures OwnedByLoop(LoopEnd(n), n) && OwnedByLoop(PlusLoopEnd(n), n)
  {
    var a := LoopEnd(n);
    assert forall k | 0 <= k < |a| :: LineOwnedByLoop(a[k], n);
    var b := PlusLoopEnd(n);
    assert forall k | 0 <= k < |b| :: LineOwnedByLoop(b[k], n);
  }

  /**
   * Both tests open with `startwhile{n}:` and leave through
   * `jz endwhile{n}`; both ends jump back to `startwhile{n}`, define
   * `endwhile{n}:` and pop the slot.
   */
  lemma LoopPiecesShape(n: nat)
    ensures var c := LoopCondition(n); |c| == 7 && c[0] == Define(StartWhile(n)) && c[6] == Jz(EndWhile(n))
    ensures var c := PlusLoopCondition(n);
      |c| == 18 && c[0] == Define(StartWhile(n)) && c[17] == Jz(EndWhile(n)) &&
      Define(IfReverseLoop(n)) in c && Define(ElseReverseLoop(n)) in c
    ensures var e := LoopEnd(n);
      |e| == 10 && e[7] == Jump(StartWhile(n)) && e[8] == Define(EndWhile(n)) && e[9] == Op("popst")
    ensures var e := PlusLoopEnd(n);
      |e| == 9 && e[6] == Jump(StartWhile(n)) && e[7] == Define(EndWhile(n)) && e[8] == Op("popst")
  {
    assert PlusLoopCondition(n)[12] == Define(IfReverseLoop(n));
    assert PlusLoopCondition(n)[16] == Define(ElseReverseLoop(n));
  }

  /** What `visit_do_loop_statement` returns around the already lowered `body`. */
  function DoLoopLines(body: seq<Line>, n: nat): seq<Line> {
    LoopInitialization(n) + LoopCondition(n) + RewriteIndex(body, n) + LoopEnd(n)
  }

  /** What `visit_do_plus_loop_statement` returns around the already lowered `body`. */
  function DoPlusLoopLines(body: seq<Line>, n: nat): seq<Line> {
    PlusLoopInitialization(n) + PlusLoopCondition(n) + RewriteIndex(body, n) + PlusLoopEnd(n)
  }

  /** The plain loop has no direction branch; only +LOOP defines the reverse labels. */
  lemma OnlyPlusLoopBranchesOnDirection(n: nat)
    ensures Define(IfReverseLoop(n)) !in LoopInitialization(n) + LoopCondition(n) + LoopEnd(n)
    ensures Define(IfReverseLoop(n)) in PlusLoopCondition(n)
  {
  }

  // ---------------------------------------------------------------------
  // The loop index `i`
  // ---------------------------------------------------------------------

  /** The line the `i` primitive leaves for the enclosing loop to resolve. */
  const IndexMarker: Line := Op("i")

  /** What `i` becomes inside loop `n`: `pushst n` and `load 1` in one element. */
  function IndexLoad(n: nat): Line {
    Op("pushst " + NatToString(n) + "\nload 1")
  }

  /**
   * The rewrite of a loop body: exactly the elements that are the `i`
   * marker become the load of loop `n`'s index; every other element is
   * kept, in place.
   */
  function RewriteIndex(lines: seq<Line>, n: nat): (r: seq<Line>)
    ensures |r| == |lines|
    ensures forall k :: 0 <= k < |lines| ==>
      r[k] == (if lines[k] == IndexMarker then IndexLoad(n) else lines[k])
  {
    if lines == [] then []
    else [if lines[0] == IndexMarker then IndexLoad(n) else lines[0]] + RewriteIndex(lines[1..], n)
  }

  /** No marker survives the rewrite. */
  lemma RewriteLeavesNoMarker(lines: seq<Line>, n: nat)
    ensures IndexMarker !in RewriteIndex(lines, n)
  {
    var r := RewriteIndex(lines, n);
    assert forall k :: 0 <= k < |r| ==> r[k] != IndexMarker;
  }

  /**
   * A body holding no marker (an inner loop's output, say) is left
   * unchanged by the rewrite, so an enclosing loop never rebinds an `i`
   * that an inner loop has already resolved.
   */
  lemma MarkerFreeRewriteIsIdentity(lines: seq<Line>, n: nat)
    requires IndexMarker !in lines
    ensures RewriteIndex(lines, n) == lines
  {
    var r := RewriteIndex(lines, n);
    assert forall k | 0 <= k < |lines| :: r[k] == lines[k];
  }

  /** A loop's whole output, fixed pieces included, carries no marker. */
  lemma LoopLinesHaveNoMarker(body: seq<Line>, n: nat)
    ensures IndexMarker !in DoLoopLines(body, n)
    ensures IndexMarker !in DoPlusLoopLines(body, n)
  {
    RewriteLeavesNoMarker(body, n);
    PiecesPlain(n);
    NoMarkerAmongPlain(LoopInitialization(n), n);
    NoMarkerAmongPlain(LoopCondition(n), n);
    NoMarkerAmongPlain(LoopEnd(n), n);
    NoMarkerAmongPlain(PlusLoopInitialization(n), n);
    NoMarkerAmongPlain(PlusLoopCondition(n), n);
    NoMarkerAmongPlain(PlusLoopEnd(n), n);
  }

  /**
   * A plain line is neither the marker nor a line whose text spans two
   * instructions; an index load is the only line of the latter kind.
   */
  predicate PlainLine(line: Line) {
    line != IndexMarker &&
    (line.Op? ==> forall i :: 0 <= i < |line.text| ==> line.text[i] != '\n')
  }

  predicate AllPlain(lines: seq<Line>) {
    forall k :: 0 <= k < |lines| ==> PlainLine(lines[k])
  }

  /** `pushst n` is a plain line. */
  lemma PushstPlain(n: nat)
    ensures PlainLine(Pushst(n))
  {
    var t := Pushst(n).text;
    assert t[7..] == NatToString(n);
    assert |t| > 1;
    forall i | 7 <= i < |t|
      ensures t[i] != '\n'
    {
      assert t[i] == NatToString(n)[i - 7];
    }
  }

  /** The index load of loop `m` is not a plain line. */
  lemma IndexLoadNotPlain(m: nat)
    ensures !PlainLine(IndexLoad(m))
  {
    var d := NatToString(m);
    var t := IndexLoad(m).text;
    assert t == "pushst " + d + "\nload 1";
    assert t[7 + |d|] == '\n';
  }

  /** The index loads of distinct loops differ. */
  lemma IndexLoadInjective(a: nat, b: nat)
    ensures IndexLoad(a) == IndexLoad(b) ==> a == b
  {
    if IndexLoad(a) == IndexLoad(b) {
      var da, db := NatToString(a), NatToString(b);
      var ta, tb := IndexLoad(a).text, IndexLoad(b).text;
      assert ta == "pushst " + da + "\nload 1" && tb == "pushst " + db + "\nload 1";
      assert |da| == |db|;
      assert da == ta[7..7 + |da|];
      assert db == tb[7..7 + |db|];
      NatToStringInjective(a, b);
    }
  }

  /** Every index load in a loop's output comes from its rewritten body, not from the fixed pieces. */
  lemma LoopIndexLoadsComeFromBody(body: seq<Line>, n: nat, m: nat)
    ensures IndexLoad(m) in DoLoopLines(body, n) <==> IndexLoad(m) in RewriteIndex(body, n)
    ensures IndexLoad(m) in DoPlusLoopLines(body, n) <==> IndexLoad(m) in RewriteIndex(body, n)
  {
    PiecesPlain(n);
    NoMarkerAmongPlain(LoopInitialization(n), m);
    NoMarkerAmongPlain(LoopCondition(n), m);
    NoMarkerAmongPlain(LoopEnd(n), m);
    NoMarkerAmongPlain(PlusLoopInitialization(n), m);
    NoMarkerAmongPlain(PlusLoopCondition(n), m);
    NoMarkerAmongPlain(PlusLoopEnd(n), m);
  }

  /** Every line of the six fixed loop pieces is a plain line. */
  lemma PiecesPlain(n: nat)
    ensures AllPlain(LoopInitialization(n)) && AllPlain(PlusLoopInitialization(n))
    ensures AllPlain(LoopCondition(n)) && AllPlain(PlusLoopCondition(n))
    ensures AllPlain(LoopEnd(n)) && AllPlain(PlusLoopEnd(n))
  {
    InitializationsPlain(n);
    ConditionPlain(n);
    PlusConditionPlain(n);
    EndsPlain(n);
  }

  lemma InitializationsPlain(n: nat)
    ensures AllPlain(LoopInitialization(n)) && AllPlain(PlusLoopInitialization(n))
  {
    PushstPlain(n);
    var a := LoopInitialization(n);
    assert forall k | 0 <= k < |a| :: PlainLine(a[k]);
    var b := PlusLoopInitialization(n);
    assert forall k | 0 <= k < |b| :: PlainLine(b[k]);
  }

  lemma ConditionPlain(n: nat)
    ensures AllPlain(LoopCondition(n))
  {
    PushstPlain(n);
    var c := LoopCondition(n);
    assert forall k | 0 <= k < |c| :: PlainLine(c[k]);
  }

  lemma PlusConditionPlain(n: nat)
    ensures AllPlain(PlusLoopCondition(n))
  {
    PushstPlain(n);
    var c := PlusLoopCondition(n);
    assert forall k | 0 <= k < |c| :: PlainLine(c[k]);
  }

  lemma EndsPlain(n: nat)
    ensures AllPlain(LoopEnd(n)) && AllPlain(PlusLoopEnd(n))
  {
    PushstPlain(n);
    var a := LoopEnd(n);
    assert forall k | 0 <= k < |a| :: PlainLine(a[k]);
    var b := PlusLoopEnd(n);
    assert forall k | 0 <= k < |b| :: PlainLine(b[k]);
  }

  /** Neither the marker nor any index load occurs among plain lines. */
  lemma NoMarkerAmongPlain(lines: seq<Line>, m: nat)
    requires AllPlain(lines)
    ensures IndexMarker !in lines
    ensures IndexLoad(m) !in lines
  {
    IndexLoadNotPlain(m);
  }
}
