/**
 * The already-parsed syntax tree the evaluator walks.  The parser is not
 * part of this model; the tree is taken as given.
 */
module Ast {
  import opened Wrappers

  /** The tokens the evaluator inspects (Go's token package names). */
  datatype Token =
    | Add | Sub | Mul | Quo | Rem
    | And | Or | Xor | Shl | Shr | AndNot
    | LAnd | LOr
    | Eql | Lss | Gtr | Leq | Geq | Neq
    | AddAssign | SubAssign | MulAssign | QuoAssign | RemAssign
    | AndAssign | OrAssign | XorAssign | ShlAssign | ShrAssign | AndNotAssign
    | Assign | Define
    | Inc | Dec
    | Break | Continue | Goto | Fallthrough
    | Not

  datatype LitKind = IntLit | FloatLit | StringLit | CharLit | ImagLit

  datatype Expr =
    | Ident(name: string)
    | BasicLit(kind: LitKind, text: string)
    | Paren(x: Expr)
    | Selector(x: Expr, sel: string)
    | Index(x: Expr, index: Expr)
    | Slice(x: Expr, low: Option<Expr>, high: Option<Expr>)
    | Call(fun: Expr, args: seq<Expr>)
    | Unary(op: Token, x: Expr)
    | Binary(op: Token, x: Expr, y: Expr)
    | ArrayLit(elems: seq<Expr>)
    | SetLit(elems: seq<Expr>)
    | DictLit(fields: seq<Field>)
    | FuncLit(decl: FuncDecl)

  datatype Field = Field(name: Expr, value: Expr)

  /**
   * A function declaration: optional name, parameter names, body block and
   * the names the body assigns to (its syntactic locals).
   */
  datatype FuncDecl = FuncDecl(name: Option<string>, params: seq<string>,
                               body: seq<Stmt>, localNames: seq<string>)

  datatype Stmt =
    | ExprStmt(x: Expr)
    | IncDec(x: Expr, tok: Token)
    | AssignStmt(lhs: seq<Expr>, tok: Token, rhs: seq<Expr>)
    | Return(results: seq<Expr>)
    | Branch(tok: Token)
    | Block(list: seq<Stmt>)
    | If(test: Expr, body: seq<Stmt>, elseBranch: Option<Stmt>)
    | For(init: Option<Stmt>, cond: Option<Expr>, post: Option<Stmt>, body: seq<Stmt>)
    | Range(keyValue: seq<Expr>, x: Expr, body: seq<Stmt>)
}
