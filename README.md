# Mini AST unparser in Dafny

This project models the abstract syntax tree of the Mini language front end
(`ast.java`) and its recursive unparser: every node's `unparse(p, indent)`
method, the `printSpace` indentation helper, the list nodes that print their
elements in order (with `", "` between expressions and between parameters),
the function-declaration printer with its placeholders for null children, and
the transient `isP` flag on expression nodes that a parent sets to make a
child print inside its own parentheses.

Nodes are values. Each `unparse` becomes a function from a node to the text it
prints. The declaration printers also take the indent. The expression and type
printers take none: in Java they receive `indent` and at most pass it on,
never printing blanks for it. The loops of the list printers and of
`printSpace` become methods with `while` loops proved to produce exactly the
text the functions specify. The one
mutation in the printer, `exp2.isP = true` in `EqualsNode.unparse`, is modelled
by a second function, `ExpPrinter.After`, that returns the tree as the call
leaves it.

Modules:

- `Wrappers` — `Option`, standing for a child reference that may be null.
- `Text` — indentation, comma-separated lists, decimal printing of `int`,
  and a scanner that decides whether a text has balanced delimiters.
- `Ast` — the node hierarchy: declarations, types, statements, expressions,
  and `TAB`, the indentation step (4 columns).
- `ExpPrinter` — the expression printer as written (`Unparse`, reading the
  stored flags), the flags it leaves behind (`After`), a context-passing
  reference printer (`Render`), and the flag-free trees a parser builds
  (`Erase`).
- `ExpProperties` — what the expression printer guarantees.
- `DeclPrinter` — programs, declarations, types, parameter lists, bodies and
  statements, as functions and as the looping methods the source uses.
- `DeclProperties` — what the declaration printer guarantees.

## Model

| member | source | states |
|---|---|---|
| Text.Spaces | ast.java:114-116 | the indentation for `indent` is exactly `max(indent, 0)` blanks and nothing else; a negative indent prints nothing |
| Text.PrintSpace | ast.java:114-116 | the counting loop of `printSpace` prints exactly `Spaces(indent)` |
| Text.CommaListConcat | ast.java:229-240 | joining two non-empty lists of texts with ", " equals joining each list and putting one ", " between the halves |
| Text.IntToString | ast.java:583-592 | the decimal text of an `int` is non-empty, starts with '-' exactly when the value is negative, and is digits otherwise |
| Text.IntToStringRoundTrip | ast.java:583-592 | reading the printed decimal text of any integer back gives the same integer |
| Text.CommaListBalanced | ast.java:229-240 | a comma-separated list of balanced texts is balanced |
| ExpPrinter.UnparseExpList | ast.java:224-245 | the loop over an argument list prints each argument in order with ", " between consecutive ones, and leaves each argument with the flags its own printer leaves |
| ExpProperties.RenderIgnoresFlags | ast.java:572-574 | the context-passing printer does not depend on any stored flag: clearing every flag leaves its text unchanged |
| ExpProperties.UnparseMatchesRender | ast.java:583-1048 | on a tree whose only flags are those the printer itself forces, printing with the stored flags equals printing with the parenthesis decision passed down from the parent |
| ExpProperties.ErasedIsSettled | ast.java:572-574 | a tree with every flag at its default `false` is one the reference printer describes |
| ExpProperties.UnparseFreshTree | ast.java:572-574 | a freshly built tree (all flags false) prints exactly as the context-passing printer prints it |
| ExpProperties.AfterChangesOnlyFlags | ast.java:935-948 | printing changes no node except through flags: the tree after printing has the same shape, operators and leaves, and the root keeps its own flag |
| ExpProperties.BinaryOperandFlags | ast.java:935-948 | after printing a binary node its left operand keeps its flag, and its right operand is flagged exactly when the operator is `==` or it was flagged before |
| ExpProperties.AfterKeepsSettled | ast.java:935-948 | printing a tree that holds only printer-forced flags leaves only printer-forced flags |
| ExpProperties.ReprintIsStable | ast.java:935-948 | printing a node again after it has been printed gives the same text, and the second print changes no further flag |
| ExpProperties.PrintTwice | ast.java:935-948 | for any expression, unparsing twice prints the same text both times and the second call leaves the tree as the first left it |
| ExpProperties.FlagEffect | ast.java:583-826 | a set flag adds exactly one pair of enclosing parentheses for literals, names, dot-accesses, assignments and binary nodes, and changes nothing for calls, unary minus and not |
| ExpProperties.UnparseBalanced | ast.java:583-1048 | an expression whose names and strings hold no delimiters prints with balanced parentheses and balanced braces, whatever its flags |
| ExpProperties.ExpListSplit | ast.java:229-240 | splitting an argument list splits its printed text at one ", " |
| ExpProperties.CallWithoutArguments | ast.java:739-752 | a call built with the name-only constructor prints `f()`, the same text as a call whose argument list is null |
| ExpProperties.EqualsExample | ast.java:935-948 | `a == b` prints as `(a == (b))`: the right operand is forced into its own parentheses |
| ExpProperties.SumExample | ast.java:814-826 | `b + c` prints as `(b + c)`: a binary node brings its own parentheses |
| ExpProperties.FlaggedSumExample | ast.java:814-826 | a flagged `b + c` prints as `((b + c))`: the flag adds a layer outside the node's own parentheses |
| ExpProperties.EqualsSumExample | ast.java:935-948 | `a == b + c` prints as `(a == ((b + c)))`: the right operand gets a layer beyond the sum's own parentheses |
| ExpProperties.EqualsUnaryExample | ast.java:788-792 | `a == -b` prints as `(a == -b)`: unary minus ignores the flag `==` sets on it |
| ExpProperties.AssignOperandExample | ast.java:716-726 | `(x = y) + z` prints as `(x=y + z)` and `-(x = y)` as `-x=y`: an assignment prints bare unless its own flag is set, and neither `+` nor unary minus sets it |
| ExpProperties.DotChainExample | ast.java:693-704 | `a.b.c` prints without parentheses when no flag is set |
| DeclPrinter.UnparseProgram | ast.java:129-131 | a program prints its declaration list at the given indent |
| DeclPrinter.UnparseDeclList | ast.java:142-152 | the loop over a declaration list prints each declaration in order at the same indent |
| DeclPrinter.UnparseDecl | ast.java:261-352 | a variable, function, parameter or struct declaration prints the text `DeclText` specifies, including the placeholders for null function children and the fields of a struct one `TAB` deeper |
| DeclPrinter.UnparseFormalsList | ast.java:163-177 | the loop over a parameter list prints "(", the parameters in order with ", " between consecutive ones, and ")" |
| DeclPrinter.UnparseFormal | ast.java:324-329 | a parameter prints its indentation, type, a blank and its name |
| DeclPrinter.UnparseFnBody | ast.java:189-196 | a body prints "{" and ends the line (the function header's line), its declarations and statements one `TAB` deeper when present, then "}" and a newline; "}" starts a line unless the last declaration is a parameter, which does not end its line (`DeclProperties.DeclFraming`) |
| DeclPrinter.UnparseStmtList | ast.java:208-218 | the loop over a statement list prints each statement in order |
| DeclProperties.DeclSeqTextAppend | ast.java:142-152 | splitting a declaration list splits its text: the text of `a + b` is the text of `a` followed by the text of `b` |
| DeclProperties.StmtSeqTextIsEmpty | ast.java:419-565 | every statement printer is empty, so a statement list of any length prints nothing |
| DeclProperties.FormalsTextSplit | ast.java:163-177 | splitting a parameter list splits its text at one ", " inside the parentheses |
| DeclProperties.EmptyFormals | ast.java:163-177 | an empty parameter list prints "()" |
| DeclProperties.BodyShowsDeclarations | ast.java:189-196 | a body's text is its declarations one `TAB` deeper between the brace lines; statements and a null list add nothing |
| DeclProperties.EmptyBody | ast.java:189-196 | a body without declarations prints "{", a newline, "}", a newline |
| DeclProperties.TypeKeywords | ast.java:365-401 | `int`, `bool` and `void` print exactly their keyword and nothing else does; a struct type, and only a struct type, prints "struct " followed by its name, which can be read back from the eighth character on |
| DeclProperties.DeclFraming | ast.java:261-352 | every declaration's text starts with its indentation; a parameter ends with its name, and every other declaration ends with a newline |
| DeclProperties.NullTypePlaceholder | ast.java:288-293 | after its indentation a function declaration starts with "type is null " exactly when its type is null |
| DeclProperties.NullIdPlaceholder | ast.java:295-298 | after the type and its blank, a function declaration whose name is null shows "id is null " |
| DeclProperties.NamedLikePlaceholder | ast.java:295-298 | a function whose name is the text "id is null " prints exactly like one whose name is null, so the name placeholder does not identify a null name |
| DeclProperties.NullFormalsPlaceholder | ast.java:299-302 | after the type and the name, a function declaration shows "list is null" exactly when its parameter list is null |
| DeclProperties.NullBodyPlaceholder | ast.java:303-307 | a function declaration ends with "body is null" and a newline exactly when its body is null |
| DeclProperties.ProgramBalanced | ast.java:129-352 | a program whose names hold no delimiters prints with balanced parentheses and balanced braces |
| DeclProperties.DeclBalanced | ast.java:261-352 | each declaration whose names hold no delimiters prints balanced |
| DeclProperties.BodyBalanced | ast.java:189-196 | a body whose declarations hold no delimiters in their names prints balanced |
| DeclProperties.EmptyFunctionExample | ast.java:288-308 | `int f() {}` prints as `int f() {`, `}` and a blank line |
| DeclProperties.VarDeclExample | ast.java:261-267 | `int x;` declared one `TAB` deep prints as four blanks, `int x;` and a newline |
| DeclProperties.StructExample | ast.java:342-351 | `struct P { int x; }` prints with the field indented by `TAB` and ends with "};" |
| DeclProperties.FormalsExample | ast.java:163-177 | parameters `int x` and `bool y` print as `(int x, bool y)` |

## Left out

- Output goes to a string instead of a `PrintWriter`; `p.println` is a
  newline character.
- The `NoSuchElementException` handlers of the list printers, which print a
  message and end the process, are not modelled: iterating over a list held
  by value cannot fail.
- Line and column numbers of literal and identifier nodes and the `size` field
  of a variable declaration (`NOT_STRUCT`) are not modelled: no printer reads
  them.
- The parser and the grammar are not part of this model, so neither is the
  round trip through re-parsing; `ExpPrinter.Erase` stands for the flag-free
  trees a parser builds.
- Nodes are values, so two parents sharing one child node (aliasing), and the
  order in which flag updates become visible to other holders of a node, are
  not captured; `ExpPrinter.After` gives the tree as one print call leaves it.
- An `IdNode` used as a function name, a field name, a declared name or in a
  struct type is printed bare: no printer ever sets the flag of such a node.
- `int` literals are modelled by a 32-bit `int32` type; Java's decimal printing
  is modelled by `Text.IntToString`.
- A child that a printer dereferences without a null test (for instance
  `type` in `VarDeclNode.unparse`, ast.java:263, `declList` in
  `StructDeclNode.unparse`, ast.java:349, and `loc` in
  `DotAccessExpNode.unparse`, ast.java:697) is always present in the model,
  so such trees cannot be built and the `NullPointerException` printing them
  would throw is not modelled. Only children that the source tests for null
  are `Option`s: the four of a function declaration, the two lists of a body,
  the argument list of a call, and the result of a `return`, which the source
  declares possibly null.
- Indents are unbounded integers. In Java, `indent + TAB` (ast.java:192,
  349) wraps to a negative value near `Integer.MAX_VALUE`, and a negative
  indent prints no blanks. The model keeps counting instead.
- DeclProperties.NullIdPlaceholder: states only that a null name shows the
  placeholder, because a name whose text is "id is null " prints the same
  (`DeclProperties.NamedLikePlaceholder`).
- `TAB` is used throughout `ast.java` but not defined there; the model fixes
  it at 4 columns.
- ExpProperties.UnparseBalanced: states balance of delimiters, not that the
  text parses back to the same tree, because the grammar is not modelled.
- DeclProperties.ProgramBalanced: states balance of delimiters, not that the
  text parses back to the same program, for the same reason.

Where a reader might expect otherwise, the model follows the code:

- Every binary node prints its own pair of parentheses whatever its context,
  but other operands, assignments among them, print bare unless flagged, so
  `(x = y) + z` prints `(x=y + z)` and the text does not always show the
  grouping (`ExpProperties.AssignOperandExample`).
- The right operand of `==` is flagged, but unary minus, `!` and calls ignore
  their flag, so for those kinds the forced layer of parentheses does not
  appear (`ExpProperties.EqualsUnaryExample`, `ExpProperties.FlagEffect`).
- Every statement printer (`ast.java:419-565`) has an empty body, so
  statements print nothing (`DeclProperties.StmtSeqTextIsEmpty`).
  `DeclPrinter.UnparseStmtList` and `DeclProperties.StmtSeqTextIsEmpty`
  therefore carry no weight beyond recording that fact.
  `DeclPrinter.StmtText` keeps the `indent` parameter of the Java signature
  but never reads it.
- `FnDeclNode.unparse` (`ast.java:288-308`) tests and prints `formalList` and
  `body`, which are the constructor's parameter names, not fields; the model
  reads the fields `formalsList` and `fnBody` that the constructor stores them
  in.
- A parameter prints its own indentation, and `FormalsListNode` passes its
  indent on to each parameter, so a function declared at a non-zero indent
  prints blanks inside its parameter list; `FnBodyNode` prints its closing
  brace without indentation. Both are modelled as written.
