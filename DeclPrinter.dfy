/**
 * Unparsing of programs, declarations, types, function bodies and
 * statements. The functions give the text each `unparse` method prints;
 * the methods follow the Java code step by step (the list nodes' iterator
 * loops, `printSpace`'s counting loop) and are proved to print exactly
 * that text.
 */
module DeclPrinter {
  import opened Wrappers
  import opened Text
  import opened Ast

  // ---------------------------------------------------------------------------
  // The printed text
  // ---------------------------------------------------------------------------

  /** `TypeNode.unparse`: the type's keyword, ignoring the indent. */
  function TypeText(t: Type): string {
    match t
    case IntType => "int"
    case BoolType => "bool"
    case VoidType => "void"
    case StructType(id) => "struct" + " " + id.strVal
  }

  /** `FormalDeclNode.unparse`: indentation, the type, a blank and the name. */
  function FormalText(f: Formal, indent: int): string {
    Spaces(indent) + TypeText(f.typ) + " " + f.id.strVal
  }

  /** The texts of the parameters, in order. */
  function FormalTexts(fs: seq<Formal>, indent: int): (r: seq<string>)
    ensures |r| == |fs|
    ensures forall i :: 0 <= i < |fs| ==> r[i] == FormalText(fs[i], indent)
  {
    if |fs| == 0 then [] else FormalTexts(fs[..|fs| - 1], indent) + [FormalText(fs[|fs| - 1], indent)]
  }

  /** `FormalsListNode.unparse`: the parameters, comma-separated, in parentheses. */
  function FormalsText(fl: FormalsList, indent: int): string {
    "(" + CommaList(FormalTexts(fl.formalDecls, indent)) + ")"
  }

  /** `DeclNode.unparse` for each kind of declaration. */
  function DeclText(d: Decl, indent: int): string
    decreases d
  {
    match d
    case VarDecl(t, id) =>
      Spaces(indent) + TypeText(t) + " " + id.strVal + ";\n"
    case FnDecl(t, id, formals, body) =>
      Spaces(indent) + TypePart(t) + " " + IdPart(id) + FormalsPart(formals, indent) + " "
      + BodyPart(body, indent) + "\n"
    case FormalDecl(f) =>
      FormalText(f, indent)
    case StructDecl(id, decls) =>
      Spaces(indent) + "struct" + " " + id.strVal + " " + "{\n" + DeclsText(decls, indent + TAB) + "};\n"
  }

  /** A function's return type, or the placeholder for a null one. */
  function TypePart(t: Option<Type>): string {
    match t
    case Some(t) => TypeText(t)
    case None => "type is null "
  }

  /** A function's name, or the placeholder for a null one. */
  function IdPart(id: Option<Ident>): string {
    match id
    case Some(id) => id.strVal
    case None => "id is null "
  }

  /** A function's parameter list, or the placeholder for a null one. */
  function FormalsPart(formals: Option<FormalsList>, indent: int): string {
    match formals
    case Some(fl) => FormalsText(fl, indent)
    case None => "list is null"
  }

  /** A function's body, or the placeholder for a null one. */
  function BodyPart(body: Option<FnBody>, indent: int): string
    decreases body
  {
    match body
    case Some(b) => BodyText(b, indent)
    case None => "body is null"
  }

  /** `DeclListNode.unparse`: every declaration in order, all at the same indent. */
  function DeclsText(dl: DeclList, indent: int): string
    decreases dl
  {
    DeclSeqText(dl.decls, indent)
  }

  function DeclSeqText(ds: seq<Decl>, indent: int): string
    decreases ds
  {
    if |ds| == 0 then "" else DeclSeqText(ds[..|ds| - 1], indent) + DeclText(ds[|ds| - 1], indent)
  }

  /** `FnBodyNode.unparse`: braces on lines of their own around the lists, one TAB deeper. */
  function BodyText(b: FnBody, indent: int): string
    decreases b
  {
    "{\n"
    + (match b.declList case Some(dl) => DeclsText(dl, indent + TAB) case None => "")
    + (match b.stmtList case Some(sl) => StmtsText(sl, indent + TAB) case None => "")
    + "}\n"
  }

  /** `StmtNode.unparse`: every statement printer in the source is an empty stub. */
  function StmtText(s: Stmt, indent: int): string {
    ""
  }

  /** `StmtListNode.unparse`: every statement in order, all at the same indent. */
  function StmtsText(sl: StmtList, indent: int): string {
    StmtSeqText(sl.stmts, indent)
  }

  function StmtSeqText(ss: seq<Stmt>, indent: int): string {
    if |ss| == 0 then "" else StmtSeqText(ss[..|ss| - 1], indent) + StmtText(ss[|ss| - 1], indent)
  }

  /** `ProgramNode.unparse`: the program's declaration list. */
  function ProgramText(p: Program, indent: int): string {
    DeclsText(p.programDecls, indent)
  }

  // ---------------------------------------------------------------------------
  // The printer as the Java code runs it
  // ---------------------------------------------------------------------------

  /** `ProgramNode.unparse`. */
  method UnparseProgram(p: Program, indent: int) returns (text: string)
    ensures text == ProgramText(p, indent)
  {
    text := UnparseDeclList(p.programDecls, indent);
  }

  /** `DeclListNode.unparse`: the iterator loop over the declarations. */
  method UnparseDeclList(dl: DeclList, indent: int) returns (text: string)
    ensures text == DeclsText(dl, indent)
    decreases dl, 1
  {
    var ds := dl.decls;
    text := "";
    var i := 0;
    while i < |ds|
      invariant 0 <= i <= |ds|
      invariant text == DeclSeqText(ds[..i], indent)
    {
      var t := UnparseDecl(ds[i], indent);
      assert ds[..i + 1][..i] == ds[..i];
      text := text + t;
      i := i + 1;
    }
    assert ds[..i] == ds;
  }

  /** `DeclNode.unparse`, one branch per subclass. */
  method UnparseDecl(d: Decl, indent: int) returns (text: string)
    ensures text == DeclText(d, indent)
    decreases d, 0
  {
    match d {
      case VarDecl(t, id) =>
        text := PrintSpace(indent);
        text := text + TypeText(t) + " " + id.strVal + ";\n";
      case FnDecl(t, id, formals, body) =>
        text := PrintSpace(indent);
        if t.None? {
          text := text + "type is null ";
        } else {
          text := text + TypeText(t.value);
        }
        text := text + " ";
        if id.None? {
          text := text + "id is null ";
        } else {
          text := text + id.value.strVal;
        }
        if formals.None? {
          text := text + "list is null";
        } else {
          var f := UnparseFormalsList(formals.value, indent);
          text := text + f;
        }
        text := text + " ";
        match body {
          case None =>
            text := text + "body is null";
          case Some(b) =>
            var bt := UnparseFnBody(b, indent);
            text := text + bt;
        }
        text := text + "\n";
      case FormalDecl(f) =>
        text := UnparseFormal(f, indent);
      case StructDecl(id, decls) =>
        text := PrintSpace(indent);
        text := text + "struct" + " " + id.strVal + " " + "{\n";
        var inner := UnparseDeclList(decls, indent + TAB);
        text := text + inner + "};\n";
    }
  }

  /** `FormalsListNode.unparse`: "(" then the iterator loop, printing ", " after each parameter that has a successor, then ")". */
  method UnparseFormalsList(fl: FormalsList, indent: int) returns (text: string)
    ensures text == FormalsText(fl, indent)
  {
    var fs := fl.formalDecls;
    var body := "";
    var i := 0;
    while i < |fs|
      invariant 0 <= i <= |fs|
      invariant body == CommaList(FormalTexts(fs[..i], indent)) + (if 0 < i < |fs| then ", " else "")
    {
      var t := UnparseFormal(fs[i], indent);
      FormalsLoopStep(fs, i, indent, body);
      if i + 1 < |fs| {
        body := body + t + ", ";
      } else {
        body := body + t;
      }
      i := i + 1;
    }
    assert fs[..i] == fs;
    text := "(" + body + ")";
  }

  /** One step of the parameter loop: printing the next parameter extends the comma-separated text by it. */
  lemma FormalsLoopStep(fs: seq<Formal>, i: int, indent: int, body: string)
    requires 0 <= i < |fs|
    requires body == CommaList(FormalTexts(fs[..i], indent)) + (if 0 < i then ", " else "")
    ensures body + FormalText(fs[i], indent) == CommaList(FormalTexts(fs[..i + 1], indent))
  {
    var parts := FormalTexts(fs[..i], indent);
    assert fs[..i + 1][..i] == fs[..i];
    assert FormalTexts(fs[..i + 1], indent) == parts + [FormalText(fs[i], indent)];
    CommaListSnoc(parts, FormalText(fs[i], indent));
  }

  /** `FormalDeclNode.unparse`. */
  method UnparseFormal(f: Formal, indent: int) returns (text: string)
    ensures text == FormalText(f, indent)
  {
    text := PrintSpace(indent);
    text := text + TypeText(f.typ) + " " + f.id.strVal;
  }

  /** `FnBodyNode.unparse`: skips a null list. */
  method UnparseFnBody(b: FnBody, indent: int) returns (text: string)
    ensures text == BodyText(b, indent)
    decreases b, 0
  {
    text := "{\n";
    match b.declList {
      case Some(dl) =>
        var dt := UnparseDeclList(dl, indent + TAB);
        text := text + dt;
      case None =>
    }
    match b.stmtList {
      case Some(sl) =>
        var st := UnparseStmtList(sl, indent + TAB);
        text := text + st;
      case None =>
    }
    text := text + "}\n";
  }

  /** `StmtListNode.unparse`: the iterator loop over the statements. */
  method UnparseStmtList(sl: StmtList, indent: int) returns (text: string)
    ensures text == StmtsText(sl, indent)
  {
    var ss := sl.stmts;
    text := "";
    var i := 0;
    while i < |ss|
      invariant 0 <= i <= |ss|
      invariant text == StmtSeqText(ss[..i], indent)
    {
      assert ss[..i + 1][..i] == ss[..i];
      text := text + StmtText(ss[i], indent);
      i := i + 1;
    }
    assert ss[..i] == ss;
  }
}
