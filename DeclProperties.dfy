/**
 * What the declaration printer guarantees: list nodes print as the
 * in-order concatenation of their elements, statements print nothing,
 * missing parts of a function print as placeholders, and a program whose
 * names contain no delimiters prints with balanced parentheses and braces.
 */
module DeclProperties {
  import opened Wrappers
  import opened Text
  import opened Ast
  import opened DeclPrinter

  // ---------------------------------------------------------------------------
  // Lists
  // ---------------------------------------------------------------------------

  /** Splitting a declaration list splits its text: each element prints on its own, in order. */
  lemma {:induction false} DeclSeqTextAppend(a: seq<Decl>, b: seq<Decl>, indent: int)
    ensures DeclSeqText(a + b, indent) == DeclSeqText(a, indent) + DeclSeqText(b, indent)
    decreases |b|
  {
    if |b| == 0 {
      assert a + b == a;
    } else {
      var b', last := b[..|b| - 1], b[|b| - 1];
      assert b == b' + [last];
      assert a + b == (a + b') + [last];
      DeclSeqTextSnoc(a + b', last, indent);
      DeclSeqTextSnoc(b', last, indent);
      DeclSeqTextAppend(a, b', indent);
      ConcatAssoc(DeclSeqText(a, indent), DeclSeqText(b', indent), DeclText(last, indent));
    }
  }

  /** Appending one declaration appends its text. */
  lemma DeclSeqTextSnoc(ds: seq<Decl>, d: Decl, indent: int)
    ensures DeclSeqText(ds + [d], indent) == DeclSeqText(ds, indent) + DeclText(d, indent)
  {
    assert (ds + [d])[..|ds|] == ds;
  }

  /** Every statement printer is a stub, so a statement list prints nothing. */
  lemma {:induction false} StmtSeqTextIsEmpty(ss: seq<Stmt>, indent: int)
    ensures StmtSeqText(ss, indent) == ""
    decreases |ss|
  {
    if |ss| > 0 {
      StmtSeqTextIsEmpty(ss[..|ss| - 1], indent);
    }
  }

  /** Splitting a parameter list splits its text at one ", ". */
  lemma FormalsTextSplit(a: seq<Formal>, b: seq<Formal>, indent: int)
    requires |a| > 0 && |b| > 0
    ensures FormalsText(FormalsList(a + b), indent)
         == "(" + CommaList(FormalTexts(a, indent)) + ", " + CommaList(FormalTexts(b, indent)) + ")"
  {
    var ta, tb := FormalTexts(a, indent), FormalTexts(b, indent);
    FormalTextsAppend(a, b, indent);
    CommaListConcat(ta, tb);
    var x, y := CommaList(ta), CommaList(tb);
    ConcatAssoc("(", x + ", ", y);
    ConcatAssoc("(", x, ", ");
  }

  lemma FormalTextsAppend(a: seq<Formal>, b: seq<Formal>, indent: int)
    ensures FormalTexts(a + b, indent) == FormalTexts(a, indent) + FormalTexts(b, indent)
  {
    var ab, ta, tb := FormalTexts(a + b, indent), FormalTexts(a, indent), FormalTexts(b, indent);
    assert |ab| == |ta + tb|;
    forall k | 0 <= k < |ab|
      ensures ab[k] == (ta + tb)[k]
    {
      if k < |a| {
        assert (a + b)[k] == a[k];
      } else {
        assert (a + b)[k] == b[k - |a|];
      }
    }
  }

  /** An empty parameter list prints "()". */
  lemma EmptyFormals(indent: int)
    ensures FormalsText(FormalsList([]), indent) == "()"
  {
    assert FormalTexts([], indent) == [];
  }

  // ---------------------------------------------------------------------------
  // Function bodies
  // ---------------------------------------------------------------------------

  /**
   * A body's text is its declarations, one TAB deeper, between a "{" line
   * and a "}" line; its statements add nothing, and a null declaration
   * list prints like an empty one.
   */
  lemma BodyShowsDeclarations(b: FnBody, indent: int)
    ensures BodyText(b, indent)
         == "{\n" + DeclSeqText((match b.declList case Some(dl) => dl.decls case None => []), indent + TAB) + "}\n"
  {
    match b.stmtList {
      case Some(sl) => StmtSeqTextIsEmpty(sl.stmts, indent + TAB);
      case None =>
    }
  }

  /** A body with no declarations prints as "{", newline, "}", newline. */
  lemma EmptyBody(b: FnBody, indent: int)
    requires b.declList.None? || b.declList.value.decls == []
    ensures BodyText(b, indent) == "{\n}\n"
  {
    BodyShowsDeclarations(b, indent);
  }

  // ---------------------------------------------------------------------------
  // Types
  // ---------------------------------------------------------------------------

  /**
   * A type's text names its kind: each keyword type prints exactly its
   * keyword, and a struct type prints "struct", a blank and then its name,
   * so the name can be read back after the first seven characters.
   */
  lemma TypeKeywords(t: Type)
    ensures TypeText(t) == "int" <==> t == IntType
    ensures TypeText(t) == "bool" <==> t == BoolType
    ensures TypeText(t) == "void" <==> t == VoidType
    ensures t.StructType? <==> StartsWith(TypeText(t), "struct ")
    ensures t.StructType? ==> |TypeText(t)| >= 7 && TypeText(t)[7..] == t.id.strVal
  {
    match t
    case StructType(id) =>
      var s := "struct" + " " + id.strVal;
      assert s == "struct " + id.strVal;
      assert s[..7] == "struct " && s[7..] == id.strVal;
    case IntType =>
    case BoolType =>
    case VoidType =>
  }

  // ---------------------------------------------------------------------------
  // Function declarations with missing parts
  // ---------------------------------------------------------------------------

  /** The part of a function declaration after its return type. */
  function FnTail(id: Option<Ident>, formals: Option<FormalsList>, body: Option<FnBody>, indent: int): string {
    " " + IdPart(id) + FormalsPart(formals, indent) + " " + BodyPart(body, indent) + "\n"
  }

  lemma FnDeclSplit(t: Option<Type>, id: Option<Ident>, formals: Option<FormalsList>, body: Option<FnBody>, indent: int)
    ensures DeclText(FnDecl(t, id, formals, body), indent) == Spaces(indent) + (TypePart(t) + FnTail(id, formals, body, indent))
  {
    var s, ty, i, f, b := Spaces(indent), TypePart(t), IdPart(id), FormalsPart(formals, indent), BodyPart(body, indent);
    var p := s + ty;
    ConcatAssoc(p, " ", i);
    ConcatAssoc(p, " " + i, f);
    ConcatAssoc(p, " " + i + f, " ");
    ConcatAssoc(p, " " + i + f + " ", b);
    ConcatAssoc(p, " " + i + f + " " + b, "\n");
    ConcatAssoc(s, ty, FnTail(id, formals, body, indent));
  }

  /**
   * After the indentation, a function declaration starts with the type
   * placeholder exactly when its type is null.
   */
  lemma NullTypePlaceholder(t: Option<Type>, id: Option<Ident>, formals: Option<FormalsList>, body: Option<FnBody>, indent: int)
    ensures t.None? <==> StartsWith(DeclText(FnDecl(t, id, formals, body), indent), Spaces(indent) + "type is null ")
  {
    var sp := Spaces(indent);
    var rest := TypePart(t) + FnTail(id, formals, body, indent);
    FnDeclSplit(t, id, formals, body, indent);
    PrefixAfter(sp, rest, "type is null ");
    if t.Some? {
      assert rest[0] == TypeText(t.value)[0] != 't';
    }
  }

  /**
   * After the type and its blank, a function declaration whose name is null
   * shows the name placeholder. The converse does not hold: a name whose
   * text is the placeholder itself prints the same (`NamedLikePlaceholder`).
   */
  lemma NullIdPlaceholder(t: Option<Type>, id: Option<Ident>, formals: Option<FormalsList>, body: Option<FnBody>, indent: int)
    ensures id.None? ==>
      StartsWith(DeclText(FnDecl(t, id, formals, body), indent), Spaces(indent) + TypePart(t) + " " + "id is null ")
  {
    var q := Spaces(indent) + TypePart(t) + " " + IdPart(id);
    Grows3(q, q, FormalsPart(formals, indent), " ", BodyPart(body, indent));
    Grow(q, q + FormalsPart(formals, indent) + " " + BodyPart(body, indent), "\n");
  }

  /** A function named by the name placeholder prints as one whose name is null. */
  lemma NamedLikePlaceholder(t: Option<Type>, formals: Option<FormalsList>, body: Option<FnBody>, indent: int)
    ensures DeclText(FnDecl(t, Some(Ident("id is null ")), formals, body), indent)
         == DeclText(FnDecl(t, None, formals, body), indent)
  {
  }

  /**
   * After the type and the name, a function declaration shows the list
   * placeholder exactly when its parameter list is null.
   */
  lemma NullFormalsPlaceholder(t: Option<Type>, id: Option<Ident>, formals: Option<FormalsList>, body: Option<FnBody>, indent: int)
    ensures var head := Spaces(indent) + TypePart(t) + " " + IdPart(id);
      formals.None? <==> StartsWith(DeclText(FnDecl(t, id, formals, body), indent), head + "list is null")
  {
    var head := Spaces(indent) + TypePart(t) + " " + IdPart(id);
    var f := FormalsPart(formals, indent);
    var text := DeclText(FnDecl(t, id, formals, body), indent);
    Grows3(head + f, head + f, " ", BodyPart(body, indent), "\n");
    match formals {
      case None =>
      case Some(fl) =>
        assert f[0] == '(';
        assert text[|head|] == (head + f)[|head|] == '(';
    }
  }

  /** `p + q` is a prefix of `p + s` exactly when `q` is a prefix of `s`. */
  lemma PrefixAfter(p: string, s: string, q: string)
    ensures StartsWith(p + s, p + q) <==> StartsWith(s, q)
  {
    if StartsWith(p + s, p + q) {
      assert forall k :: 0 <= k < |q| ==> q[k] == (p + q)[|p| + k] == (p + s)[|p| + k] == s[k];
    }
    if StartsWith(s, q) {
      assert p + s == (p + q) + s[|q|..];
    }
  }

  /** A function declaration ends with the body placeholder exactly when its body is null. */
  lemma NullBodyPlaceholder(t: Option<Type>, id: Option<Ident>, formals: Option<FormalsList>, body: Option<FnBody>, indent: int)
    ensures body.None? <==> EndsWith(DeclText(FnDecl(t, id, formals, body), indent), "body is null\n")
  {
    var head := Spaces(indent) + TypePart(t) + " " + IdPart(id) + FormalsPart(formals, indent) + " ";
    match body {
      case Some(b) =>
        BodyEndsWithBrace(b, indent);
        BraceLineIsNotPlaceholder(head, BodyText(b, indent));
      case None =>
        PlaceholderLine(head);
    }
  }

  lemma PlaceholderLine(head: string)
    ensures EndsWith(head + "body is null" + "\n", "body is null\n")
  {
    ConcatAssoc(head, "body is null", "\n");
    SuffixOfConcat(head, "body is null\n");
  }

  lemma BraceLineIsNotPlaceholder(head: string, bt: string)
    requires |bt| >= 2 && bt[|bt| - 2] == '}'
    ensures !EndsWith(head + bt + "\n", "body is null\n")
  {
    var r := head + bt + "\n";
    assert r[|r| - 3] == bt[|bt| - 2];
    assert "body is null\n"[10] == 'l';
  }

  /** A body's text ends with "}" and a newline. */
  lemma BodyEndsWithBrace(b: FnBody, indent: int)
    ensures var bt := BodyText(b, indent); |bt| >= 2 && bt[|bt| - 2] == '}' && bt[|bt| - 1] == '\n'
  {
    var inner := "{\n"
      + (match b.declList case Some(dl) => DeclsText(dl, indent + TAB) case None => "")
      + (match b.stmtList case Some(sl) => StmtsText(sl, indent + TAB) case None => "");
    assert BodyText(b, indent) == inner + "}\n";
  }

  /** `y` is a suffix of `x + y`. */
  lemma SuffixOfConcat(x: string, y: string)
    ensures EndsWith(x + y, y)
  {
    assert (x + y)[|x|..] == y;
  }

  /**
   * Every declaration starts with its indentation; a parameter ends with its
   * name, and every other declaration ends its last line.
   */
  lemma DeclFraming(d: Decl, indent: int)
    ensures StartsWith(DeclText(d, indent), Spaces(indent))
    ensures d.FormalDecl? ==> EndsWith(DeclText(d, indent), d.formal.id.strVal)
    ensures !d.FormalDecl? ==> EndsWith(DeclText(d, indent), "\n")
  {
    var s := Spaces(indent);
    match d
    case VarDecl(t, id) =>
      var x := s + TypeText(t) + " " + id.strVal;
      Grows3(s, s, TypeText(t), " ", id.strVal);
      Grow(s, x, ";\n");
      LineEnd(x, ";\n");
    case FnDecl(t, id, formals, body) =>
      var x := s + TypePart(t) + " " + IdPart(id);
      var y := x + FormalsPart(formals, indent) + " " + BodyPart(body, indent);
      Grows3(s, s, TypePart(t), " ", IdPart(id));
      Grows3(s, x, FormalsPart(formals, indent), " ", BodyPart(body, indent));
      Grow(s, y, "\n");
      LineEnd(y, "\n");
    case FormalDecl(f) =>
      var x := s + TypeText(f.typ) + " ";
      Grows3(s, s, TypeText(f.typ), " ", f.id.strVal);
      SuffixOfConcat(x, f.id.strVal);
    case StructDecl(id, decls) =>
      var x := s + "struct" + " " + id.strVal;
      var y := x + " " + "{\n" + DeclsText(decls, indent + TAB);
      Grows3(s, s, "struct", " ", id.strVal);
      Grows3(s, x, " ", "{\n", DeclsText(decls, indent + TAB));
      Grow(s, y, "};\n");
      LineEnd(y, "};\n");
  }

  /** Appending to a text keeps its prefixes. */
  lemma Grow(p: string, y: string, z: string)
    requires StartsWith(y, p)
    ensures StartsWith(y + z, p)
  {
    assert (y + z)[..|p|] == y[..|p|];
  }

  /** Appending three pieces to a text keeps its prefixes. */
  lemma Grows3(p: string, y: string, z1: string, z2: string, z3: string)
    requires StartsWith(y, p)
    ensures StartsWith(y + z1 + z2 + z3, p)
  {
    Grow(p, y, z1);
    Grow(p, y + z1, z2);
    Grow(p, y + z1 + z2, z3);
  }

  /** A text whose last piece ends with a newline ends with a newline. */
  lemma LineEnd(x: string, last: string)
    requires |last| > 0 && last[|last| - 1] == '\n'
    ensures EndsWith(x + last, "\n")
  {
    assert (x + last)[|x + last| - 1..] == [last[|last| - 1]];
  }

  // ---------------------------------------------------------------------------
  // Balanced parentheses and braces
  // ---------------------------------------------------------------------------

  predicate PlainType(t: Type) {
    t.StructType? ==> Plain(t.id.strVal)
  }

  predicate PlainFormal(f: Formal) {
    PlainType(f.typ) && Plain(f.id.strVal)
  }

  /** Every name in the declaration is free of parentheses and braces. */
  predicate PlainDecl(d: Decl)
    decreases d
  {
    match d
    case VarDecl(t, id) => PlainType(t) && Plain(id.strVal)
    case FnDecl(t, id, formals, body) =>
      (t.Some? ==> PlainType(t.value))
      && (id.Some? ==> Plain(id.value.strVal))
      && (formals.Some? ==> forall i :: 0 <= i < |formals.value.formalDecls| ==> PlainFormal(formals.value.formalDecls[i]))
      && PlainBodyPart(body)
    case FormalDecl(f) => PlainFormal(f)
    case StructDecl(id, dl) => Plain(id.strVal) && PlainDeclSeq(dl.decls)
  }

  predicate PlainBodyPart(body: Option<FnBody>)
    decreases body
  {
    match body
    case Some(FnBody(Some(dl), _)) => PlainDeclSeq(dl.decls)
    case _ => true
  }

  predicate PlainDeclSeq(ds: seq<Decl>)
    decreases ds
  {
    forall i :: 0 <= i < |ds| ==> PlainDecl(ds[i])
  }

  lemma SpacesArePlain(indent: int)
    ensures Plain(Spaces(indent))
  {
  }

  lemma TypeTextIsPlain(t: Type)
    requires PlainType(t)
    ensures Plain(TypeText(t))
  {
    if t.StructType? {
      PlainConcat("struct" + " ", t.id.strVal);
    }
  }

  lemma FormalTextIsPlain(f: Formal, indent: int)
    requires PlainFormal(f)
    ensures Plain(FormalText(f, indent))
  {
    SpacesArePlain(indent);
    TypeTextIsPlain(f.typ);
    PlainConcat(Spaces(indent), TypeText(f.typ));
    PlainConcat(Spaces(indent) + TypeText(f.typ), " ");
    PlainConcat(Spaces(indent) + TypeText(f.typ) + " ", f.id.strVal);
  }

  lemma FormalsBalanced(fl: FormalsList, indent: int, open: char, close: char)
    requires DelimPair(open, close)
    requires forall i :: 0 <= i < |fl.formalDecls| ==> PlainFormal(fl.formalDecls[i])
    ensures Balanced(FormalsText(fl, indent), open, close)
  {
    var parts := FormalTexts(fl.formalDecls, indent);
    forall i | 0 <= i < |parts|
      ensures Balanced(parts[i], open, close)
    {
      FormalTextIsPlain(fl.formalDecls[i], indent);
      BalancedFree(parts[i], open, close);
    }
    CommaListBalanced(parts, open, close);
    BalancedParenthesized(CommaList(parts), open, close);
  }

  /** A block "{", newline, `x`, "}", `tail` is balanced when `x` is and `tail` holds no delimiter. */
  lemma BlockBalanced(x: string, tail: string, open: char, close: char)
    requires DelimPair(open, close) && Balanced(x, open, close) && Plain(tail)
    ensures Balanced("{\n" + x + "}" + tail, open, close)
  {
    BalancedFree("\n", open, close);
    BalancedConcat("\n", x, open, close);
    var inner := "\n" + x;
    if open == '{' {
      BalancedEnclose(inner, open, close);
      assert "{\n" + x + "}" == [open] + inner + [close];
    } else {
      BalancedFree("{", open, close);
      BalancedFree("}", open, close);
      BalancedConcat("{", inner, open, close);
      BalancedConcat("{" + inner, "}", open, close);
      assert "{\n" + x + "}" == "{" + inner + "}";
    }
    BalancedFree(tail, open, close);
    BalancedConcat("{\n" + x + "}", tail, open, close);
  }

  /** Five balanced pieces in a row are balanced. */
  lemma Balanced5(a: string, b: string, c: string, d: string, e: string, open: char, close: char)
    requires Balanced(a, open, close) && Balanced(b, open, close) && Balanced(c, open, close)
    requires Balanced(d, open, close) && Balanced(e, open, close)
    ensures Balanced(a + b + c + d + e, open, close)
  {
    BalancedConcat(a, b, open, close);
    BalancedConcat(a + b, c, open, close);
    BalancedConcat(a + b + c, d, open, close);
    BalancedConcat(a + b + c + d, e, open, close);
  }


  lemma VarDeclBalanced(t: Type, id: Ident, indent: int, open: char, close: char)
    requires DelimPair(open, close) && PlainDecl(VarDecl(t, id))
    ensures Balanced(DeclText(VarDecl(t, id), indent), open, close)
  {
    SpacesArePlain(indent);
    TypeTextIsPlain(t);
    PlainConcat(Spaces(indent), TypeText(t));
    PlainConcat(Spaces(indent) + TypeText(t), " ");
    PlainConcat(Spaces(indent) + TypeText(t) + " ", id.strVal);
    PlainConcat(Spaces(indent) + TypeText(t) + " " + id.strVal, ";\n");
    BalancedPlain(DeclText(VarDecl(t, id), indent), open, close);
  }

  /** The header of a function declaration, up to its parameter list, holds no delimiter. */
  lemma FnHeaderIsPlain(t: Option<Type>, id: Option<Ident>, indent: int)
    requires t.Some? ==> PlainType(t.value)
    requires id.Some? ==> Plain(id.value.strVal)
    ensures Plain(Spaces(indent) + TypePart(t) + " " + IdPart(id))
  {
    SpacesArePlain(indent);
    if t.Some? {
      TypeTextIsPlain(t.value);
    }
    PlainConcat(Spaces(indent), TypePart(t));
    PlainConcat(Spaces(indent) + TypePart(t), " ");
    PlainConcat(Spaces(indent) + TypePart(t) + " ", IdPart(id));
  }

  lemma FnDeclBalanced(t: Option<Type>, id: Option<Ident>, formals: Option<FormalsList>, body: Option<FnBody>,
                       indent: int, open: char, close: char)
    requires DelimPair(open, close)
    requires t.Some? ==> PlainType(t.value)
    requires id.Some? ==> Plain(id.value.strVal)
    requires formals.Some? ==> forall i :: 0 <= i < |formals.value.formalDecls| ==> PlainFormal(formals.value.formalDecls[i])
    requires Balanced(BodyPart(body, indent), open, close)
    ensures Balanced(DeclText(FnDecl(t, id, formals, body), indent), open, close)
  {
    FnHeaderBalanced(t, id, indent, open, close);
    FormalsPartBalanced(formals, indent, open, close);
    FnDeclAssembled(Spaces(indent) + TypePart(t) + " " + IdPart(id), FormalsPart(formals, indent), BodyPart(body, indent), open, close);
  }

  lemma FnHeaderBalanced(t: Option<Type>, id: Option<Ident>, indent: int, open: char, close: char)
    requires DelimPair(open, close)
    requires t.Some? ==> PlainType(t.value)
    requires id.Some? ==> Plain(id.value.strVal)
    ensures Balanced(Spaces(indent) + TypePart(t) + " " + IdPart(id), open, close)
  {
    FnHeaderIsPlain(t, id, indent);
    BalancedPlain(Spaces(indent) + TypePart(t) + " " + IdPart(id), open, close);
  }

  lemma FormalsPartBalanced(formals: Option<FormalsList>, indent: int, open: char, close: char)
    requires DelimPair(open, close)
    requires formals.Some? ==> forall i :: 0 <= i < |formals.value.formalDecls| ==> PlainFormal(formals.value.formalDecls[i])
    ensures Balanced(FormalsPart(formals, indent), open, close)
  {
    match formals {
      case Some(fl) => FormalsBalanced(fl, indent, open, close);
      case None => BalancedPlain("list is null", open, close);
    }
  }

  /** The assembly of a function declaration from its header, parameter list and body keeps balance. */
  lemma FnDeclAssembled(head: string, formals: string, body: string, open: char, close: char)
    requires DelimPair(open, close)
    requires Balanced(head, open, close) && Balanced(formals, open, close) && Balanced(body, open, close)
    ensures Balanced(head + formals + " " + body + "\n", open, close)
  {
    BalancedPlain(" ", open, close);
    BalancedPlain("\n", open, close);
    Balanced5(head, formals, " ", body, "\n", open, close);
  }

  lemma StructDeclBalanced(id: Ident, dl: DeclList, indent: int, open: char, close: char)
    requires DelimPair(open, close) && Plain(id.strVal)
    requires Balanced(DeclsText(dl, indent + TAB), open, close)
    ensures Balanced(DeclText(StructDecl(id, dl), indent), open, close)
  {
    var head := Spaces(indent) + "struct" + " " + id.strVal + " ";
    SpacesArePlain(indent);
    PlainConcat(Spaces(indent), "struct ");
    PlainConcat(Spaces(indent) + "struct ", id.strVal);
    PlainConcat(Spaces(indent) + "struct " + id.strVal, " ");
    assert head == Spaces(indent) + "struct " + id.strVal + " ";
    BalancedPlain(head, open, close);
    var block := "{\n" + DeclsText(dl, indent + TAB) + "}" + ";\n";
    BlockBalanced(DeclsText(dl, indent + TAB), ";\n", open, close);
    BalancedConcat(head, block, open, close);
    assert DeclText(StructDecl(id, dl), indent) == head + block;
  }

  lemma {:induction false} DeclBalanced(d: Decl, indent: int, open: char, close: char)
    requires DelimPair(open, close) && PlainDecl(d)
    ensures Balanced(DeclText(d, indent), open, close)
    decreases d
  {
    match d
    case VarDecl(t, id) =>
      VarDeclBalanced(t, id, indent, open, close);
    case FnDecl(t, id, formals, body) =>
      match body {
        case Some(b) => BodyBalanced(b, indent, open, close);
        case None => BalancedPlain("body is null", open, close);
      }
      FnDeclBalanced(t, id, formals, body, indent, open, close);
    case FormalDecl(f) =>
      FormalTextIsPlain(f, indent);
      BalancedPlain(FormalText(f, indent), open, close);
    case StructDecl(id, dl) =>
      DeclSeqBalanced(dl.decls, indent + TAB, open, close);
      StructDeclBalanced(id, dl, indent, open, close);
  }

  lemma {:induction false} DeclSeqBalanced(ds: seq<Decl>, indent: int, open: char, close: char)
    requires DelimPair(open, close) && PlainDeclSeq(ds)
    ensures Balanced(DeclSeqText(ds, indent), open, close)
    decreases ds
  {
    if |ds| == 0 {
      BalancedFree("", open, close);
    } else {
      var init := ds[..|ds| - 1];
      assert PlainDeclSeq(init) by {
        forall i | 0 <= i < |init| ensures PlainDecl(init[i]) {
          assert init[i] == ds[i];
        }
      }
      DeclSeqBalanced(init, indent, open, close);
      DeclBalanced(ds[|ds| - 1], indent, open, close);
      BalancedConcat(DeclSeqText(init, indent), DeclText(ds[|ds| - 1], indent), open, close);
    }
  }

  lemma {:induction false} BodyBalanced(b: FnBody, indent: int, open: char, close: char)
    requires DelimPair(open, close) && PlainBodyPart(Some(b))
    ensures Balanced(BodyText(b, indent), open, close)
    decreases b
  {
    BodyShowsDeclarations(b, indent);
    match b.declList {
      case Some(dl) =>
        DeclSeqBalanced(dl.decls, indent + TAB, open, close);
        BlockBalanced(DeclSeqText(dl.decls, indent + TAB), "\n", open, close);
        assert "{\n" + DeclSeqText(dl.decls, indent + TAB) + "}\n" == "{\n" + DeclSeqText(dl.decls, indent + TAB) + "}" + "\n";
      case None =>
        BalancedFree("", open, close);
        BlockBalanced("", "\n", open, close);
        assert "{\n" + DeclSeqText([], indent + TAB) + "}\n" == "{\n" + "" + "}" + "\n";
    }
  }

  /**
   * A program whose names contain no parentheses or braces prints with
   * balanced parentheses and balanced braces.
   */
  lemma ProgramBalanced(p: Program, indent: int, open: char, close: char)
    requires DelimPair(open, close) && PlainDeclSeq(p.programDecls.decls)
    ensures Balanced(ProgramText(p, indent), open, close)
  {
    DeclSeqBalanced(p.programDecls.decls, indent, open, close);
  }

  // ---------------------------------------------------------------------------
  // Worked examples
  // ---------------------------------------------------------------------------

  /** `int f() { }` prints its header, an empty braced body, and a blank line. */
  lemma EmptyFunctionExample()
    ensures DeclText(FnDecl(Some(IntType), Some(Ident("f")), Some(FormalsList([])),
                            Some(FnBody(Some(DeclList([])), Some(StmtList([]))))), 0)
         == "int f() {\n}\n\n"
  {
    EmptyFormals(0);
    EmptyBody(FnBody(Some(DeclList([])), Some(StmtList([]))), 0);
  }

  /** A struct declaration prints its fields one TAB deeper and ends with "};". */
  lemma StructExample()
    ensures DeclText(StructDecl(Ident("P"), DeclList([VarDecl(IntType, Ident("x"))])), 0)
         == "struct P {\n    int x;\n};\n"
  {
    var field := VarDecl(IntType, Ident("x"));
    VarDeclExample();
    assert [field][..0] == [];
    assert DeclSeqText([field], TAB) == "    int x;\n";
    assert Spaces(0) == "";
    calc {
      DeclText(StructDecl(Ident("P"), DeclList([field])), 0);
      "" + "struct" + " " + "P" + " " + "{\n" + "    int x;\n" + "};\n";
      "struct P {\n    int x;\n};\n";
    }
  }

  /** `int x;` declared one TAB deep prints four blanks, the type, the name and ";". */
  lemma VarDeclExample()
    ensures DeclText(VarDecl(IntType, Ident("x")), TAB) == "    int x;\n"
  {
    assert Spaces(TAB) == "    ";
    calc {
      DeclText(VarDecl(IntType, Ident("x")), TAB);
      "    " + "int" + " " + "x" + ";\n";
      "    int x;\n";
    }
  }

  /** Parameters print comma-separated inside parentheses. */
  lemma FormalsExample()
    ensures FormalsText(FormalsList([Formal(IntType, Ident("x")), Formal(BoolType, Ident("y"))]), 0)
         == "(int x, bool y)"
  {
    var fs := [Formal(IntType, Ident("x")), Formal(BoolType, Ident("y"))];
    var parts := FormalTexts(fs, 0);
    assert parts[0] == "int x" && parts[1] == "bool y";
    assert parts == ["int x", "bool y"];
    assert parts[..1] == ["int x"];
  }
}
