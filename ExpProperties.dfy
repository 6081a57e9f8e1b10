/**
 * What the expression printer guarantees: the printer as written agrees
 * with the context-passing printer on every tree the parser builds,
 * printing changes nothing but flags and printing twice prints the same
 * text, the flag adds parentheses exactly where the node kind honours it,
 * and the output has balanced parentheses.
 */
module ExpProperties {
  import opened Wrappers
  import opened Text
  import opened Ast
  import opened ExpPrinter

  // ---------------------------------------------------------------------------
  // The two printers agree
  // ---------------------------------------------------------------------------

  /** The context-passing printer reads no stored flag. */
  lemma {:induction false} RenderIgnoresFlags(k: ExpKind, paren: bool)
    ensures RenderAs(EraseKind(k), paren) == RenderAs(k, paren)
    decreases k
  {
    match k
    case DotAccess(loc, _) =>
      RenderIgnoresFlags(loc.kind, false);
    case Assign(lhs, rhs) =>
      RenderIgnoresFlags(lhs.kind, false);
      RenderIgnoresFlags(rhs.kind, false);
    case CallExp(_, Some(args)) =>
      forall i | 0 <= i < |args.exps|
        ensures Render(Erase(args.exps[i]), false) == Render(args.exps[i], false)
      {
        RenderIgnoresFlags(args.exps[i].kind, false);
      }
      assert RenderEach(EraseEach(args.exps)) == RenderEach(args.exps);
    case UnaryMinus(x) =>
      RenderIgnoresFlags(x.kind, false);
    case Not(x) =>
      RenderIgnoresFlags(x.kind, false);
    case Binary(op, l, r) =>
      RenderIgnoresFlags(l.kind, false);
      RenderIgnoresFlags(r.kind, op == Equals);
    case _ =>
  }

  /**
   * On a settled tree the printer as written prints what the
   * context-passing printer prints: the stored flags it reads are exactly
   * the requests the context would pass.
   */
  lemma {:induction false} UnparseMatchesRender(k: ExpKind, isP: bool)
    requires Settled(k)
    ensures UnparseAs(k, isP) == RenderAs(k, isP)
    decreases k
  {
    match k
    case DotAccess(loc, _) =>
      UnparseMatchesRender(loc.kind, false);
    case Assign(lhs, rhs) =>
      UnparseMatchesRender(lhs.kind, false);
      UnparseMatchesRender(rhs.kind, false);
    case CallExp(_, Some(args)) =>
      forall i | 0 <= i < |args.exps|
        ensures Unparse(args.exps[i]) == Render(args.exps[i], false)
      {
        assert Unflagged(args.exps[i]);
        UnparseMatchesRender(args.exps[i].kind, false);
      }
      assert UnparseEach(args.exps) == RenderEach(args.exps);
    case UnaryMinus(x) =>
      UnparseMatchesRender(x.kind, false);
    case Not(x) =>
      UnparseMatchesRender(x.kind, false);
    case Binary(op, l, r) =>
      UnparseMatchesRender(l.kind, false);
      UnparseMatchesRender(r.kind, op == Equals);
    case _ =>
  }

  /** A tree as the parser builds it, with every flag false, is settled. */
  lemma {:induction false} ErasedIsSettled(k: ExpKind)
    ensures Settled(EraseKind(k))
    decreases k
  {
    match k
    case DotAccess(loc, _) =>
      ErasedIsSettled(loc.kind);
    case Assign(lhs, rhs) =>
      ErasedIsSettled(lhs.kind);
      ErasedIsSettled(rhs.kind);
    case CallExp(_, Some(args)) =>
      forall i | 0 <= i < |args.exps|
        ensures Unflagged(EraseEach(args.exps)[i])
      {
        ErasedIsSettled(args.exps[i].kind);
      }
    case UnaryMinus(x) =>
      ErasedIsSettled(x.kind);
    case Not(x) =>
      ErasedIsSettled(x.kind);
    case Binary(op, l, r) =>
      ErasedIsSettled(l.kind);
      ErasedIsSettled(r.kind);
    case _ =>
  }

  /**
   * Printing a freshly built tree (every `isP` at its default, false) gives
   * exactly the context-passing rendering of that tree.
   */
  lemma UnparseFreshTree(e: Exp)
    ensures Unparse(Erase(e)) == Render(e, false)
  {
    ErasedIsSettled(e.kind);
    UnparseMatchesRender(EraseKind(e.kind), false);
    RenderIgnoresFlags(e.kind, false);
  }

  // ---------------------------------------------------------------------------
  // What printing does to the flags
  // ---------------------------------------------------------------------------

  /** Printing changes flags only, and never the flag of the node being printed. */
  lemma {:induction false} AfterChangesOnlyFlags(k: ExpKind, isP: bool)
    ensures AfterAs(k, isP).isP == isP
    ensures EraseKind(AfterAs(k, isP).kind) == EraseKind(k)
    decreases k
  {
    match k
    case DotAccess(loc, _) =>
      AfterChangesOnlyFlags(loc.kind, loc.isP);
    case Assign(lhs, rhs) =>
      AfterChangesOnlyFlags(lhs.kind, lhs.isP);
      AfterChangesOnlyFlags(rhs.kind, rhs.isP);
    case CallExp(_, Some(args)) =>
      forall i | 0 <= i < |args.exps|
        ensures Erase(AfterEach(args.exps)[i]) == Erase(args.exps[i])
      {
        AfterChangesOnlyFlags(args.exps[i].kind, args.exps[i].isP);
      }
      assert EraseEach(AfterEach(args.exps)) == EraseEach(args.exps);
    case UnaryMinus(x) =>
      AfterChangesOnlyFlags(x.kind, x.isP);
    case Not(x) =>
      AfterChangesOnlyFlags(x.kind, x.isP);
    case Binary(op, l, r) =>
      AfterChangesOnlyFlags(l.kind, l.isP);
      AfterChangesOnlyFlags(r.kind, if op == Equals then true else r.isP);
    case _ =>
  }

  /**
   * `==` sets the flag of its right operand and leaves the left operand's
   * flag as it was; every other operator leaves both flags alone.
   */
  lemma BinaryOperandFlags(op: BinOp, l: Exp, r: Exp, isP: bool)
    ensures AfterAs(Binary(op, l, r), isP).kind.exp1.isP == l.isP
    ensures AfterAs(Binary(op, l, r), isP).kind.exp2.isP == (op == Equals || r.isP)
  {
    AfterChangesOnlyFlags(l.kind, l.isP);
    AfterChangesOnlyFlags(r.kind, if op == Equals then true else r.isP);
  }

  /** A settled tree stays settled when printed. */
  lemma {:induction false} AfterKeepsSettled(k: ExpKind, isP: bool)
    requires Settled(k)
    ensures Settled(AfterAs(k, isP).kind)
    decreases k
  {
    match k
    case DotAccess(loc, _) =>
      AfterKeepsSettled(loc.kind, false);
    case Assign(lhs, rhs) =>
      AfterKeepsSettled(lhs.kind, false);
      AfterKeepsSettled(rhs.kind, false);
    case CallExp(_, Some(args)) =>
      forall i | 0 <= i < |args.exps|
        ensures Unflagged(AfterEach(args.exps)[i])
      {
        assert Unflagged(args.exps[i]);
        AfterKeepsSettled(args.exps[i].kind, false);
      }
    case UnaryMinus(x) =>
      AfterKeepsSettled(x.kind, false);
    case Not(x) =>
      AfterKeepsSettled(x.kind, false);
    case Binary(op, l, r) =>
      AfterKeepsSettled(l.kind, false);
      AfterKeepsSettled(r.kind, if op == Equals then true else false);
    case _ =>
  }

  /**
   * The flags printing leaves behind do not change what is printed next
   * time, and printing again changes no further flag.
   */
  lemma {:induction false} ReprintIsStable(k: ExpKind, isP: bool)
    ensures UnparseAs(AfterAs(k, isP).kind, isP) == UnparseAs(k, isP)
    ensures AfterAs(AfterAs(k, isP).kind, isP) == AfterAs(k, isP)
    decreases k
  {
    match k
    case DotAccess(loc, _) =>
      ReprintIsStable(loc.kind, loc.isP);
      AfterChangesOnlyFlags(loc.kind, loc.isP);
    case Assign(lhs, rhs) =>
      ReprintIsStable(lhs.kind, lhs.isP);
      ReprintIsStable(rhs.kind, rhs.isP);
      AfterChangesOnlyFlags(lhs.kind, lhs.isP);
      AfterChangesOnlyFlags(rhs.kind, rhs.isP);
    case CallExp(_, Some(args)) =>
      var es := args.exps;
      forall i | 0 <= i < |es|
        ensures Unparse(After(es[i])) == Unparse(es[i])
        ensures After(After(es[i])) == After(es[i])
      {
        ReprintIsStable(es[i].kind, es[i].isP);
        AfterChangesOnlyFlags(es[i].kind, es[i].isP);
      }
      assert UnparseEach(AfterEach(es)) == UnparseEach(es);
      assert AfterEach(AfterEach(es)) == AfterEach(es);
    case UnaryMinus(x) =>
      ReprintIsStable(x.kind, x.isP);
      AfterChangesOnlyFlags(x.kind, x.isP);
    case Not(x) =>
      ReprintIsStable(x.kind, x.isP);
      AfterChangesOnlyFlags(x.kind, x.isP);
    case Binary(op, l, r) =>
      ReprintIsStable(l.kind, l.isP);
      AfterChangesOnlyFlags(l.kind, l.isP);
      var rp := if op == Equals then true else r.isP;
      ReprintIsStable(r.kind, rp);
      AfterChangesOnlyFlags(r.kind, rp);
    case _ =>
  }

  /** Printing a whole tree twice writes the same text twice. */
  lemma PrintTwice(e: Exp)
    ensures Unparse(After(e)) == Unparse(e)
    ensures After(After(e)) == After(e)
  {
    ReprintIsStable(e.kind, e.isP);
    AfterChangesOnlyFlags(e.kind, e.isP);
  }

  // ---------------------------------------------------------------------------
  // What the flag does to one node
  // ---------------------------------------------------------------------------

  /**
   * A set flag adds exactly one enclosing pair of parentheses, except on
   * UnaryMinus, Not and CallExp, whose printers never look at it.
   */
  lemma FlagEffect(k: ExpKind)
    ensures HonorsFlag(k) ==> UnparseAs(k, true) == "(" + UnparseAs(k, false) + ")"
    ensures !HonorsFlag(k) ==> UnparseAs(k, true) == UnparseAs(k, false)
  {
  }

  // ---------------------------------------------------------------------------
  // Balanced parentheses
  // ---------------------------------------------------------------------------

  /** Every identifier and string literal in the tree is free of parentheses and braces. */
  predicate PlainKind(k: ExpKind)
    decreases k
  {
    match k
    case StringLit(s) => Plain(s)
    case Id(s) => Plain(s)
    case DotAccess(loc, field) => PlainExp(loc) && Plain(field.strVal)
    case Assign(lhs, rhs) => PlainExp(lhs) && PlainExp(rhs)
    case CallExp(callee, Some(args)) => Plain(callee.strVal) && PlainEach(args.exps)
    case CallExp(callee, None) => Plain(callee.strVal)
    case UnaryMinus(x) => PlainExp(x)
    case Not(x) => PlainExp(x)
    case Binary(_, l, r) => PlainExp(l) && PlainExp(r)
    case _ => true
  }

  predicate PlainExp(e: Exp)
    decreases e
  {
    PlainKind(e.kind)
  }

  predicate PlainEach(es: seq<Exp>)
    decreases es
  {
    forall i :: 0 <= i < |es| ==> PlainExp(es[i])
  }

  lemma DigitsArePlain(s: string, from: int)
    requires 0 <= from
    requires forall k :: from <= k < |s| ==> IsDigit(s[k])
    requires forall k :: 0 <= k < from && k < |s| ==> s[k] == '-'
    ensures Plain(s)
  {
    forall k | 0 <= k < |s|
      ensures !IsDelim(s[k])
    {
      if k >= from {
        assert IsDigit(s[k]);
      }
    }
  }

  lemma BalancedWrap(paren: bool, s: string, open: char, close: char)
    requires DelimPair(open, close) && Balanced(s, open, close)
    ensures Balanced(Wrap(paren, s), open, close)
  {
    if paren {
      BalancedParenthesized(s, open, close);
    }
  }

  lemma InfixBalanced(isP: bool, a: string, sep: string, b: string, open: char, close: char)
    requires DelimPair(open, close) && Plain(sep)
    requires Balanced(a, open, close) && Balanced(b, open, close)
    ensures Balanced(Wrap(isP, a + sep + b), open, close)
  {
    BalancedPlain(sep, open, close);
    BalancedConcat(a, sep, open, close);
    BalancedConcat(a + sep, b, open, close);
    BalancedWrap(isP, a + sep + b, open, close);
  }

  lemma PrefixBalanced(sym: string, x: string, open: char, close: char)
    requires DelimPair(open, close) && Plain(sym) && Balanced(x, open, close)
    ensures Balanced(sym + x, open, close)
  {
    BalancedPlain(sym, open, close);
    BalancedConcat(sym, x, open, close);
  }

  lemma BinaryBalanced(isP: bool, left: string, op: BinOp, right: string, open: char, close: char)
    requires DelimPair(open, close)
    requires Balanced(left, open, close) && Balanced(right, open, close)
    ensures Balanced(Wrap(isP, "(" + left + " " + OpSymbol(op) + " " + right + ")"), open, close)
  {
    var mid := " " + OpSymbol(op) + " ";
    BalancedPlain(mid, open, close);
    BalancedConcat(left, mid, open, close);
    BalancedConcat(left + mid, right, open, close);
    BalancedParenthesized(left + mid + right, open, close);
    assert "(" + left + " " + OpSymbol(op) + " " + right + ")" == "(" + (left + mid + right) + ")";
    BalancedWrap(isP, "(" + (left + mid + right) + ")", open, close);
  }

  lemma CallBalanced(name: string, args: string, open: char, close: char)
    requires DelimPair(open, close) && Plain(name) && Balanced(args, open, close)
    ensures Balanced(name + "(" + args + ")", open, close)
  {
    BalancedPlain(name, open, close);
    BalancedParenthesized(args, open, close);
    BalancedConcat(name, "(" + args + ")", open, close);
    assert name + "(" + args + ")" == name + ("(" + args + ")");
  }

  lemma LeafBalanced(k: ExpKind, isP: bool, open: char, close: char)
    requires DelimPair(open, close) && PlainKind(k)
    requires k.IntLit? || k.StringLit? || k.TrueLit? || k.FalseLit? || k.Id?
    ensures Balanced(UnparseAs(k, isP), open, close)
  {
    var s := match k
      case IntLit(v) => IntToString(v as int)
      case StringLit(s) => s
      case TrueLit => "true"
      case FalseLit => "false"
      case Id(s) => s;
    if k.IntLit? {
      DigitsArePlain(s, if k.intVal < 0 then 1 else 0);
    }
    BalancedPlain(s, open, close);
    BalancedWrap(isP, s, open, close);
  }

  /**
   * Whatever the stored flags, the printed text of an expression whose
   * names and strings contain no parentheses or braces has balanced
   * parentheses and balanced braces.
   */
  lemma {:induction false} UnparseBalanced(k: ExpKind, isP: bool, open: char, close: char)
    requires DelimPair(open, close) && PlainKind(k)
    ensures Balanced(UnparseAs(k, isP), open, close)
    decreases k
  {
    match k
    case DotAccess(loc, field) =>
      UnparseBalanced(loc.kind, loc.isP, open, close);
      BalancedPlain(field.strVal, open, close);
      InfixBalanced(isP, Unparse(loc), ".", field.strVal, open, close);
    case Assign(lhs, rhs) =>
      UnparseBalanced(lhs.kind, lhs.isP, open, close);
      UnparseBalanced(rhs.kind, rhs.isP, open, close);
      InfixBalanced(isP, Unparse(lhs), "=", Unparse(rhs), open, close);
    case CallExp(callee, Some(args)) =>
      var parts := UnparseEach(args.exps);
      forall i | 0 <= i < |parts|
        ensures Balanced(parts[i], open, close)
      {
        assert PlainExp(args.exps[i]) && parts[i] == Unparse(args.exps[i]);
        UnparseBalanced(args.exps[i].kind, args.exps[i].isP, open, close);
      }
      CommaListBalanced(parts, open, close);
      CallBalanced(callee.strVal, CommaList(parts), open, close);
    case CallExp(callee, None) =>
      BalancedPlain("", open, close);
      CallBalanced(callee.strVal, "", open, close);
      assert callee.strVal + "(" + ")" == callee.strVal + "(" + "" + ")";
    case UnaryMinus(x) =>
      UnparseBalanced(x.kind, x.isP, open, close);
      PrefixBalanced("-", Unparse(x), open, close);
    case Not(x) =>
      UnparseBalanced(x.kind, x.isP, open, close);
      PrefixBalanced("!", Unparse(x), open, close);
    case Binary(op, l, r) =>
      var rp := if op == Equals then true else r.isP;
      UnparseBalanced(l.kind, l.isP, open, close);
      UnparseBalanced(r.kind, rp, open, close);
      BinaryBalanced(isP, Unparse(l), op, UnparseAs(r.kind, rp), open, close);
    case _ =>
      LeafBalanced(k, isP, open, close);
  }

  // ---------------------------------------------------------------------------
  // Calls
  // ---------------------------------------------------------------------------

  /** Splitting an argument list splits its text at one ", ": each argument prints on its own, in order. */
  lemma ExpListSplit(a: seq<Exp>, b: seq<Exp>)
    requires |a| > 0 && |b| > 0
    ensures CommaList(UnparseEach(a + b)) == CommaList(UnparseEach(a)) + ", " + CommaList(UnparseEach(b))
  {
    UnparseEachAppend(a, b);
    CommaListConcat(UnparseEach(a), UnparseEach(b));
  }

  lemma UnparseEachAppend(a: seq<Exp>, b: seq<Exp>)
    ensures UnparseEach(a + b) == UnparseEach(a) + UnparseEach(b)
  {
    var ab, ua, ub := UnparseEach(a + b), UnparseEach(a), UnparseEach(b);
    assert |ab| == |ua + ub|;
    forall k | 0 <= k < |ab|
      ensures ab[k] == (ua + ub)[k]
    {
      if k < |a| {
        assert (a + b)[k] == a[k];
      } else {
        assert (a + b)[k] == b[k - |a|];
      }
    }
  }

  /**
   * A call built with the one-argument constructor prints `f()`, and so
   * does a call whose argument list is null.
   */
  lemma CallWithoutArguments(name: Ident)
    ensures Unparse(NewCallNoArgs(name)) == name.strVal + "()"
    ensures Unparse(NewCall(name, None)) == Unparse(NewCallNoArgs(name))
  {
    assert UnparseEach([]) == [];
  }

  // ---------------------------------------------------------------------------
  // Worked examples
  // ---------------------------------------------------------------------------

  function Var(name: string): Exp {
    Exp(Id(name), false)
  }

  function Bin(op: BinOp, l: Exp, r: Exp): Exp {
    Exp(Binary(op, l, r), false)
  }

  /** `a == b` prints "(a == (b))". */
  lemma EqualsExample()
    ensures Unparse(Bin(Equals, Var("a"), Var("b"))) == "(a == (b))"
  {
    assert UnparseAs(Id("b"), true) == "(b)";
    calc {
      Unparse(Bin(Equals, Var("a"), Var("b")));
      "(" + "a" + " " + "==" + " " + "(b)" + ")";
      "(a == (b))";
    }
  }

  /** `b + c` prints "(b + c)": every binary node parenthesizes itself. */
  lemma SumExample()
    ensures Unparse(Bin(Plus, Var("b"), Var("c"))) == "(b + c)"
  {
    assert Unparse(Var("b")) == "b" && Unparse(Var("c")) == "c";
    assert Unparse(Bin(Plus, Var("b"), Var("c"))) == "(" + "b" + " " + "+" + " " + "c" + ")";
  }

  /** A flagged `b + c` prints "((b + c))": the flag adds a layer around the node's own parentheses. */
  lemma FlaggedSumExample()
    ensures UnparseAs(Binary(Plus, Var("b"), Var("c")), true) == "((b + c))"
  {
    SumExample();
    assert UnparseAs(Binary(Plus, Var("b"), Var("c")), true) == "(" + "(b + c)" + ")";
  }

  /** `a == b + c` prints "(a == ((b + c)))". */
  lemma EqualsSumExample()
    ensures Unparse(Bin(Equals, Var("a"), Bin(Plus, Var("b"), Var("c")))) == "(a == ((b + c)))"
  {
    FlaggedSumExample();
    assert Unparse(Var("a")) == "a";
    calc {
      Unparse(Bin(Equals, Var("a"), Bin(Plus, Var("b"), Var("c"))));
      "(" + "a" + " " + "==" + " " + "((b + c))" + ")";
      "(a == ((b + c)))";
    }
  }

  /** `a == -b` prints "(a == -b)": a unary operand ignores the flag `==` sets. */
  lemma EqualsUnaryExample()
    ensures Unparse(Bin(Equals, Var("a"), Exp(UnaryMinus(Var("b")), false))) == "(a == -b)"
  {
    assert UnparseAs(UnaryMinus(Var("b")), true) == "-b";
    calc {
      Unparse(Bin(Equals, Var("a"), Exp(UnaryMinus(Var("b")), false)));
      "(" + "a" + " " + "==" + " " + "-b" + ")";
      "(a == -b)";
    }
  }

  /**
   * `(x = y) + z` prints "(x=y + z)" and `-(x = y)` prints "-x=y": an
   * assignment operand is not parenthesized unless flagged, and neither `+`
   * nor unary minus flags its operands, so the text does not show the grouping.
   */
  lemma AssignOperandExample()
    ensures Unparse(Bin(Plus, Exp(Assign(Var("x"), Var("y")), false), Var("z"))) == "(x=y + z)"
    ensures Unparse(Exp(UnaryMinus(Exp(Assign(Var("x"), Var("y")), false)), false)) == "-x=y"
  {
    assert Unparse(Exp(Assign(Var("x"), Var("y")), false)) == "x=y";
    calc {
      Unparse(Bin(Plus, Exp(Assign(Var("x"), Var("y")), false), Var("z")));
      "(" + "x=y" + " " + "+" + " " + "z" + ")";
      "(x=y + z)";
    }
  }

  /** The dot chain `(a.b).c` prints "a.b.c". */
  lemma DotChainExample()
    ensures Unparse(Exp(DotAccess(Exp(DotAccess(Var("a"), Ident("b")), false), Ident("c")), false)) == "a.b.c"
  {
    assert Unparse(Exp(DotAccess(Var("a"), Ident("b")), false)) == "a.b";
  }
}
