/** The abstract syntax shared by the bytecode compiler, the formatter and the JavaScript printer.
    Spans are dropped: none of the modelled code reads them except to attach them to messages. */
module Syntax {

  datatype Option<+T> = None | Some(value: T)

  datatype Result<+T, +E> = Ok(value: T) | Err(error: E) {
    predicate IsFailure() {
      Err?
    }

    function PropagateFailure<U>(): Result<U, E>
      requires Err?
    {
      Err(error)
    }

    function Extract(): T
      requires Ok?
    {
      value
    }
  }

  type Name = string

  datatype UnaryOp = Plus | Minus | Not | BitwiseNot | Typeof | Delete | Void

  datatype BinaryOp =
    | Add | Sub | Mul | Div | Mod | Exp
    | Assign | PlusAssign | MinusAssign | MulAssign | DivAssign | ExpAssign
    | Equals | StrictEquals | NotEquals | StrictNotEquals
    | Less | Greater | LessOrEqual | GreaterOrEqual
    | And | Or | NullishCoalescing | NullishAssign | AndAssign | OrAssign
    | Pipeline | Instanceof | In
    | BitAnd | BitOr | BitXor | LeftShift | RightShift | UnsignedRightShift
    | ModAssign | BitAndAssign | BitOrAssign | BitXorAssign | ShlAssign | ShrAssign | UshrAssign

  datatype PostfixOp = Increment | Decrement

  datatype Literal =
    | NumberLit(raw: string)
    | BigIntLit(big: int)
    | TextLit(text: string)
    | BoolLit(flag: bool)
    | NullLit
    | UndefinedLit

  datatype Expr =
    | Identifier(name: Name)
    | Lit(literal: Literal)
    | Grouping(inner: Expr)
    | Unary(uop: UnaryOp, operand: Expr)
    | Binary(op: BinaryOp, lhs: Expr, rhs: Expr)
    | Assignment(target: Name, value: Expr)
    | Postfix(pop: PostfixOp, operand: Expr)
    | Conditional(condition: Expr, thenExpr: Expr, elseExpr: Expr)

  datatype Block = Block(stmts: seq<Stmt>)

  datatype SwitchCase = SwitchCase(value: Expr, body: Block)

  datatype Stmt =
    | VarDecl(name: Name, init: Expr, isConst: bool)
    | ExprStmt(expr: Expr)
    | BlockStmt(block: Block)
    | Empty
    | If(condition: Expr, thenBranch: Stmt, elseBranch: Option<Stmt>)
    | While(condition: Expr, body: Stmt)
    | DoWhile(body: Stmt, condition: Expr)
    | For(forInit: Option<Stmt>, forCondition: Option<Expr>, update: Option<Expr>, body: Stmt)
    | Switch(scrutinee: Expr, cases: seq<SwitchCase>, defaultBlock: Option<Block>)
    | Labeled(tag: Name, body: Stmt)
    | Break(target: Option<Name>)
    | Continue(target: Option<Name>)
    | Return(result: Option<Expr>)
    | Throw(thrown: Expr)

  /** `is_loop_stmt` (crates/yps-vm/src/compiler.rs:2083-2085). */
  predicate IsLoop(s: Stmt) {
    s.While? || s.For? || s.DoWhile?
  }
}
