/** The part of the syntax tree that the flow-graph builder looks at: expressions built from
    narrowable references and logical operators, and the structured statements. Every node that the
    builder or an execution refers to by identity carries an `id`. */
module Syntax {
  import opened Wrappers

  datatype LogicalOperator = AmpersandAmpersand | BarBar

  datatype BinaryOperator = Comma | StrictEquals | Plus

  datatype Expr =
    | Ident(name: string, id: nat)
    | Opaque(id: nat) // an expression that is neither narrowable nor has children, such as a numeric literal
    | TrueLiteral
    | FalseLiteral
    | Paren(inner: Expr)
    | Not(operand: Expr)
    | Logical(op: LogicalOperator, left: Expr, right: Expr)
    | LogicalAssign(op: LogicalOperator, target: string, targetId: nat, right: Expr)
    | Assign(target: string, targetId: nat, right: Expr)
    | Conditional(condition: Expr, whenTrue: Expr, whenFalse: Expr)
    | Binary(operator: BinaryOperator, left: Expr, right: Expr)
    | Call(callee: string, calleeId: nat, argument: Expr)

  datatype Clause = Clause(test: Option<Expr>, body: seq<Stmt>) // no test: the default clause

  datatype BlockOption = NoBlock | SomeBlock(statements: seq<Stmt>)

  datatype Stmt =
    | Empty(id: nat)
    | Block(id: nat, statements: seq<Stmt>)
    | Var(id: nat, target: string, initializer: Option<Expr>)
    | ExprStmt(id: nat, expr: Expr)
    | If(id: nat, cond: Expr, thenStmt: Stmt, elseStmt: Option<Stmt>)
    | Do(id: nat, body: Stmt, cond: Expr)
    | While(id: nat, cond: Expr, body: Stmt)
    | For(id: nat, init: Option<Expr>, test: Option<Expr>, incr: Option<Expr>, body: Stmt)
    | ForOf(id: nat, target: string, expr: Expr, body: Stmt)
    | Continue(id: nat, destination: Option<string>)
    | Break(id: nat, destination: Option<string>)
    | Return(id: nat, result: Option<Expr>)
    | Throw(id: nat, expr: Expr)
    | Switch(id: nat, expr: Expr, clauses: seq<Clause>)
    | Labeled(id: nat, name: string, body: Stmt)
    | Try(id: nat, block: seq<Stmt>, handler: BlockOption, finalizer: BlockOption)
    | Function(id: nat, isConstructor: bool, statements: seq<Stmt>)

  /** The assigned reference as an expression node. */
  function Target(e: Expr): Expr
    requires e.LogicalAssign? || e.Assign?
  {
    Ident(e.target, e.targetId)
  }

  predicate IsNarrowableReference(e: Expr) {
    match e
    case Ident(_, _) => true
    case Paren(x) => IsNarrowableReference(x)
    case Binary(op, _, r) => op.Comma? && IsNarrowableReference(r)
    case Assign(_, _, _) => true
    case LogicalAssign(_, _, _, _) => true
    case _ => false
  }

  predicate IsNarrowableOperand(e: Expr) {
    match e
    case Paren(x) => IsNarrowableOperand(x)
    case Assign(_, _, _) => true
    case Binary(op, _, r) => if op.Comma? then IsNarrowableOperand(r) else IsNarrowableReference(e)
    case _ => IsNarrowableReference(e)
  }

  predicate IsBooleanLiteral(e: Expr) {
    e.TrueLiteral? || e.FalseLiteral?
  }

  /** Whether a condition on `e` can narrow a reference, and so deserves a node in the graph. */
  predicate IsNarrowing(e: Expr) {
    match e
    case Ident(_, _) => true
    case Call(_, _, a) => IsNarrowableReference(a)
    case Paren(x) => IsNarrowing(x)
    case Assign(_, _, _) => true
    case LogicalAssign(_, _, _, _) => true
    case Binary(op, l, r) =>
      (match op
       case StrictEquals =>
         || IsNarrowableOperand(l) || IsNarrowableOperand(r)
         || (IsBooleanLiteral(r) && IsNarrowing(l)) || (IsBooleanLiteral(l) && IsNarrowing(r))
       case Comma => IsNarrowing(r)
       case Plus => false)
    case Not(x) => IsNarrowing(x)
    case _ => false
  }

  /** A logical operator, possibly under parentheses and negations. */
  predicate IsLogicalExpression(e: Expr) {
    match e
    case Paren(x) => IsLogicalExpression(x)
    case Not(x) => IsLogicalExpression(x)
    case Logical(_, _, _) => true
    case _ => false
  }

  /** A logical assignment, possibly under parentheses. */
  predicate IsLogicalAssignment(e: Expr) {
    match e
    case Paren(x) => IsLogicalAssignment(x)
    case LogicalAssign(_, _, _, _) => true
    case _ => false
  }

  /** Whether the left operand of `op` alone settles the result. */
  predicate Decides(op: LogicalOperator, truthy: bool) {
    match op
    case AmpersandAmpersand => !truthy
    case BarBar => truthy
  }

  /** The statement kinds between VariableStatement and DebuggerStatement: those whose flow node the
      builder records on the syntax node. */
  predicate IsRecorded(s: Stmt) {
    !s.Empty? && !s.Block? && !s.Function?
  }

  /** Statements whose unreachability is reported, once. */
  predicate IsReportable(s: Stmt) {
    !s.Empty? && !s.Block? && !s.Function?
  }

  predicate HasDefault(clauses: seq<Clause>) {
    exists c :: c in clauses && c.test.None?
  }

  predicate IsNarrowingSwitch(e: Expr) {
    e.TrueLiteral? || IsNarrowing(e)
  }
}
