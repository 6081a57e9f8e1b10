/**
 * The abstract-syntax tree of a Mini program, one datatype per node family
 * of ast.java: declarations, types, statements and expressions, and one
 * datatype per list node (DeclListNode, FormalsListNode, StmtListNode,
 * ExpListNode) holding its elements as a sequence. A Java field that the
 * unparser null-checks is an `Option`; the others are always present.
 */
module Ast {
  import opened Wrappers

  /** Columns added per nesting level. The Java source uses `TAB` without declaring it. */
  const TAB: int := 4

  /** Java's `int`, the type of an integer literal's value. */
  newtype int32 = x: int | -0x8000_0000 <= x < 0x8000_0000

  /**
   * An IdNode in a position where it is not an operand of an expression
   * (declared names, field names, callees, struct type names). Its print
   * flag is never set there, so it prints as its bare name.
   */
  datatype Ident = Ident(strVal: string)

  /** TypeNode: IntNode, BoolNode, VoidNode, StructNode. */
  datatype Type = IntType | BoolType | VoidType | StructType(id: Ident)

  /** FormalDeclNode: one parameter of a function. */
  datatype Formal = Formal(typ: Type, id: Ident)

  /** FormalsListNode. */
  datatype FormalsList = FormalsList(formalDecls: seq<Formal>)

  /** DeclNode and its subclasses. */
  datatype Decl =
    | VarDecl(typ: Type, id: Ident)
    | FnDecl(fnType: Option<Type>, fnId: Option<Ident>, formalsList: Option<FormalsList>, fnBody: Option<FnBody>)
    | FormalDecl(formal: Formal)
    | StructDecl(structId: Ident, structDecls: DeclList)

  /** DeclListNode. */
  datatype DeclList = DeclList(decls: seq<Decl>)

  /** StmtListNode. */
  datatype StmtList = StmtList(stmts: seq<Stmt>)

  /** FnBodyNode: either list may be missing. */
  datatype FnBody = FnBody(declList: Option<DeclList>, stmtList: Option<StmtList>)

  /** StmtNode and its subclasses; a missing return value is `None`. */
  datatype Stmt =
    | AssignStmt(assign: Exp)
    | PostIncStmt(exp: Exp)
    | PostDecStmt(exp: Exp)
    | ReadStmt(exp: Exp)
    | WriteStmt(exp: Exp)
    | IfStmt(exp: Exp, declList: DeclList, stmtList: StmtList)
    | IfElseStmt(exp: Exp, thenDeclList: DeclList, thenStmtList: StmtList,
                 elseDeclList: DeclList, elseStmtList: StmtList)
    | WhileStmt(exp: Exp, declList: DeclList, stmtList: StmtList)
    | RepeatStmt(exp: Exp, declList: DeclList, stmtList: StmtList)
    | CallStmt(callExp: Exp)
    | ReturnStmt(result: Option<Exp>)

  /** ProgramNode. */
  datatype Program = Program(programDecls: DeclList)

  /** The twelve subclasses of BinaryExpNode. */
  datatype BinOp =
    | Plus | Minus | Times | Divide | And | Or
    | Equals | NotEquals | Less | Greater | LessEq | GreaterEq

  /** What an ExpNode is, apart from its print flag. */
  datatype ExpKind =
    | IntLit(intVal: int32)
    | StringLit(strVal: string)
    | TrueLit
    | FalseLit
    | Id(name: string)
    | DotAccess(loc: Exp, field: Ident)
    | Assign(lhs: Exp, rhs: Exp)
    | CallExp(callee: Ident, args: Option<ExpList>)
    | UnaryMinus(operand: Exp)
    | Not(operand: Exp)
    | Binary(op: BinOp, exp1: Exp, exp2: Exp)

  /** An ExpNode: its kind and children, and the transient print flag `isP`. */
  datatype Exp = Exp(kind: ExpKind, isP: bool)

  /** ExpListNode. */
  datatype ExpList = ExpList(exps: seq<Exp>)

  /** `new CallExpNode(name, elist)`; `elist` may be null. */
  function NewCall(name: Ident, elist: Option<ExpList>): Exp {
    Exp(CallExp(name, elist), false)
  }

  /** `new CallExpNode(name)`: installs an empty argument list. */
  function NewCallNoArgs(name: Ident): Exp {
    Exp(CallExp(name, Some(ExpList([]))), false)
  }
}
