/**
 * Unparsing of expressions (ExpNode and its subclasses, and ExpListNode).
 *
 * In ast.java every ExpNode carries a flag `isP`, false when the node is
 * built; a node whose flag is set wraps its text in one extra pair of
 * parentheses, and EqualsNode sets the flag of its right operand just
 * before printing it. The printer is therefore modelled in two ways:
 *
 *  - `Unparse`/`UnparseAs` follow the Java code: every node is printed with
 *    the flag stored in it, except that an `==` node forces its right
 *    operand's flag to true; `After` is the tree as it is once printing
 *    has set those flags.
 *  - `Render` passes the "parenthesize me" request down as a parameter and
 *    ignores stored flags altogether.
 *
 * The lemmas show that the two agree on every tree the parser can build,
 * that printing again prints the same text, and that the output has
 * balanced parentheses.
 */
module ExpPrinter {
  import opened Wrappers
  import opened Text
  import opened Ast

  /** The operator as the unparser spells it between its operands. */
  function OpSymbol(op: BinOp): string {
    match op
    case Plus => "+"
    case Minus => "-"
    case Times => "*"
    case Divide => "/"
    case And => "&&"
    case Or => "||"
    case Equals => "=="
    case NotEquals => "!="
    case Less => "<"
    case Greater => ">"
    case LessEq => "<="
    case GreaterEq => ">="
  }

  /** `s`, with one enclosing pair of parentheses when `paren` holds. */
  function Wrap(paren: bool, s: string): string {
    if paren then "(" + s + ")" else s
  }

  /** Kinds whose printer looks at its own flag; UnaryMinus, Not and CallExp never do. */
  predicate HonorsFlag(k: ExpKind) {
    !(k.CallExp? || k.UnaryMinus? || k.Not?)
  }

  // ---------------------------------------------------------------------------
  // The printer as written: stored flags, and the flags it leaves behind
  // ---------------------------------------------------------------------------

  /** `e.unparse(p, indent)`: the text printed for `e` with the flags stored in the tree. */
  function Unparse(e: Exp): string
    decreases e
  {
    UnparseAs(e.kind, e.isP)
  }

  /** The text printed for a node of kind `k` whose flag reads `isP` when it is printed. */
  function UnparseAs(k: ExpKind, isP: bool): string
    decreases k
  {
    match k
    case IntLit(v) => Wrap(isP, IntToString(v as int))
    case StringLit(s) => Wrap(isP, s)
    case TrueLit => Wrap(isP, "true")
    case FalseLit => Wrap(isP, "false")
    case Id(s) => Wrap(isP, s)
    case DotAccess(loc, field) => Wrap(isP, Unparse(loc) + "." + field.strVal)
    case Assign(lhs, rhs) => Wrap(isP, Unparse(lhs) + "=" + Unparse(rhs))
    case CallExp(callee, Some(args)) => callee.strVal + "(" + CommaList(UnparseEach(args.exps)) + ")"
    case CallExp(callee, None) => callee.strVal + "(" + ")"
    case UnaryMinus(x) => "-" + Unparse(x)
    case Not(x) => "!" + Unparse(x)
    case Binary(op, l, r) =>
      var right := if op == Equals then UnparseAs(r.kind, true) else Unparse(r);
      Wrap(isP, "(" + Unparse(l) + " " + OpSymbol(op) + " " + right + ")")
  }

  /** The texts of the elements of an ExpListNode, in stored order. */
  function UnparseEach(es: seq<Exp>): (r: seq<string>)
    decreases es
  {
    seq(|es|, i requires 0 <= i < |es| => Unparse(es[i]))
  }

  /** `e` as it is after `e.unparse` has run: each `==` node's right operand has its flag set. */
  function After(e: Exp): Exp
    decreases e
  {
    AfterAs(e.kind, e.isP)
  }

  function AfterAs(k: ExpKind, isP: bool): Exp
    decreases k
  {
    match k
    case DotAccess(loc, field) => Exp(DotAccess(After(loc), field), isP)
    case Assign(lhs, rhs) => Exp(Assign(After(lhs), After(rhs)), isP)
    case CallExp(callee, Some(args)) => Exp(CallExp(callee, Some(ExpList(AfterEach(args.exps)))), isP)
    case UnaryMinus(x) => Exp(UnaryMinus(After(x)), isP)
    case Not(x) => Exp(Not(After(x)), isP)
    case Binary(op, l, r) =>
      Exp(Binary(op, After(l), if op == Equals then AfterAs(r.kind, true) else After(r)), isP)
    case _ => Exp(k, isP)
  }

  function AfterEach(es: seq<Exp>): seq<Exp>
    decreases es
  {
    seq(|es|, i requires 0 <= i < |es| => After(es[i]))
  }

  /** `ExpListNode.unparse`: the iterator loop, printing ", " after every element that has a successor. */
  method UnparseExpList(exps: seq<Exp>) returns (text: string, after: seq<Exp>)
    ensures text == CommaList(UnparseEach(exps))
    ensures after == AfterEach(exps)
  {
    text, after := "", [];
    var i := 0;
    while i < |exps|
      invariant 0 <= i <= |exps|
      invariant text == CommaList(UnparseEach(exps[..i])) + (if 0 < i < |exps| then ", " else "")
      invariant after == AfterEach(exps[..i])
    {
      assert UnparseEach(exps[..i + 1]) == UnparseEach(exps[..i]) + [Unparse(exps[i])];
      assert AfterEach(exps[..i + 1]) == AfterEach(exps[..i]) + [After(exps[i])];
      text := text + Unparse(exps[i]);
      after := after + [After(exps[i])];
      if i + 1 < |exps| {
        text := text + ", ";
      }
      i := i + 1;
    }
    assert exps[..i] == exps;
  }

  // ---------------------------------------------------------------------------
  // The printer with the flag passed as a parameter
  // ---------------------------------------------------------------------------

  /** The text of `e` when its parent asks for parentheses exactly when `paren` holds. */
  function Render(e: Exp, paren: bool): string
    decreases e
  {
    RenderAs(e.kind, paren)
  }

  function RenderAs(k: ExpKind, paren: bool): string
    decreases k
  {
    match k
    case IntLit(v) => Wrap(paren, IntToString(v as int))
    case StringLit(s) => Wrap(paren, s)
    case TrueLit => Wrap(paren, "true")
    case FalseLit => Wrap(paren, "false")
    case Id(s) => Wrap(paren, s)
    case DotAccess(loc, field) => Wrap(paren, Render(loc, false) + "." + field.strVal)
    case Assign(lhs, rhs) => Wrap(paren, Render(lhs, false) + "=" + Render(rhs, false))
    case CallExp(callee, Some(args)) => callee.strVal + "(" + CommaList(RenderEach(args.exps)) + ")"
    case CallExp(callee, None) => callee.strVal + "(" + ")"
    case UnaryMinus(x) => "-" + Render(x, false)
    case Not(x) => "!" + Render(x, false)
    case Binary(op, l, r) =>
      Wrap(paren, "(" + Render(l, false) + " " + OpSymbol(op) + " " + Render(r, op == Equals) + ")")
  }

  function RenderEach(es: seq<Exp>): seq<string>
    decreases es
  {
    seq(|es|, i requires 0 <= i < |es| => Render(es[i], false))
  }

  // ---------------------------------------------------------------------------
  // Flags
  // ---------------------------------------------------------------------------

  /** `e` with every flag cleared: the tree as the parser builds it. */
  function Erase(e: Exp): Exp
    decreases e
  {
    Exp(EraseKind(e.kind), false)
  }

  function EraseKind(k: ExpKind): ExpKind
    decreases k
  {
    match k
    case DotAccess(loc, field) => DotAccess(Erase(loc), field)
    case Assign(lhs, rhs) => Assign(Erase(lhs), Erase(rhs))
    case CallExp(callee, Some(args)) => CallExp(callee, Some(ExpList(EraseEach(args.exps))))
    case UnaryMinus(x) => UnaryMinus(Erase(x))
    case Not(x) => Not(Erase(x))
    case Binary(op, l, r) => Binary(op, Erase(l), Erase(r))
    case _ => k
  }

  function EraseEach(es: seq<Exp>): seq<Exp>
    decreases es
  {
    seq(|es|, i requires 0 <= i < |es| => Erase(es[i]))
  }

  /**
   * No flag below the root is set, except possibly on the right operand of
   * an `==` node, whose flag the printer overwrites before reading it.
   */
  predicate Settled(k: ExpKind)
    decreases k
  {
    match k
    case DotAccess(loc, _) => Unflagged(loc)
    case Assign(lhs, rhs) => Unflagged(lhs) && Unflagged(rhs)
    case CallExp(_, Some(args)) => SettledEach(args.exps)
    case UnaryMinus(x) => Unflagged(x)
    case Not(x) => Unflagged(x)
    case Binary(op, l, r) => Unflagged(l) && (if op == Equals then Settled(r.kind) else Unflagged(r))
    case _ => true
  }

  predicate SettledEach(es: seq<Exp>)
    decreases es
  {
    forall i :: 0 <= i < |es| ==> Unflagged(es[i])
  }

  /** The flag of `e` is clear and its subtree is settled. */
  predicate Unflagged(e: Exp)
    decreases e
  {
    !e.isP && Settled(e.kind)
  }
}
