/**
 The script language: expressions, statements, and the order in which parsing
 them fires the compiler's semantic rules.
 */
module Script {
  import opened Words
  import opened Registers

  datatype Kind = Global | Local

  /** What can stand on the left of an assignment: a named variable or a guest register. */
  datatype Place =
    | Variable(kind: Kind, name: string)
    | Register(reg: GuestReg)

  datatype Expr =
    | Number(value: u64)
    | Read(place: Place)
    | Unary(uop: UnaryOp, arg: Expr)
    | Binary(bop: BinaryOp, left: Expr, right: Expr)

  datatype Simple =
    | Assign(place: Place, value: Expr)
    | Increment(place: Place)
    | Decrement(place: Place)

  /** The statement-level calls that report one value and return nothing. */
  datatype Report = Print | Formats | EventEnable | EventDisable | TestStatement

  /**
   Statements.  The initial assignment of a `for` header is compiled before the
   loop starts, so `for (i = e; c; step) { b }` is `Seq(Do(Assign(i, e)), For(c, step, b))`.
   */
  datatype Stmt =
    | Skip
    | Seq(first: Stmt, second: Stmt)
    | Do(action: Simple)
    | If(cond: Expr, thn: Stmt, rest: Branches)
    | While(cond: Expr, body: Stmt)
    | DoWhile(body: Stmt, cond: Expr)
    | For(cond: Expr, step: Simple, body: Stmt)
    | Break
    | Continue
    | Call(report: Report, arg: Expr)
    | Printf(format: string, args: seq<Expr>)

  /** What follows the first branch of an `if`; a missing `else` is `Else(Skip)`. */
  datatype Branches =
    | ElsIf(cond: Expr, body: Stmt, rest: Branches)
    | Else(body: Stmt)

  /** The semantic rules the compiler is driven by. */
  datatype Rule =
    | Mov | Inc | Dec
    | UnaryRule(uop: UnaryOp)
    | BinaryRule(bop: BinaryOp)
    | ReportRule(report: Report)
    | VargStart | PrintfRule
    | StartOfIf | Jz | JmpToEndAndJzCompleted | EndOfIf
    | StartOfWhile | StartOfWhileCommands | EndOfWhile
    | StartOfDoWhile | EndOfDoWhile
    | StartOfFor | ForIncDec | StartOfForCommands | EndOfFor
    | BreakRule | ContinueRule
    | ForeignRule

  /** One thing a parser does to the compiler: push an operand or fire a rule. */
  datatype Action =
    | PushNumber(value: u64)
    | PushPlace(place: Place)
    | PushString(text: string)
    | Generate(rule: Rule)

  predicate Leaf(e: Expr) {
    e.Number? || e.Read?
  }

  function ExprActions(e: Expr): seq<Action> {
    match e
    case Number(n) => [PushNumber(n)]
    case Read(p) => [PushPlace(p)]
    case Unary(op, a) => ExprActions(a) + [Generate(UnaryRule(op))]
    case Binary(op, l, r) => ExprActions(l) + ExprActions(r) + [Generate(BinaryRule(op))]
  }

  function ArgsActions(args: seq<Expr>): seq<Action> {
    if args == [] then [] else ExprActions(args[0]) + ArgsActions(args[1..])
  }

  function SimpleActions(a: Simple): seq<Action> {
    match a
    case Assign(p, e) => [PushPlace(p)] + ExprActions(e) + [Generate(Mov)]
    case Increment(p) => [PushPlace(p), Generate(Inc)]
    case Decrement(p) => [PushPlace(p), Generate(Dec)]
  }

  function StmtActions(s: Stmt): seq<Action> {
    match s
    case Skip => []
    case Seq(a, b) => StmtActions(a) + StmtActions(b)
    case Do(a) => SimpleActions(a)
    case If(c, t, r) =>
      [Generate(StartOfIf)] + ExprActions(c) + [Generate(Jz)] + StmtActions(t)
      + BranchesActions(r) + [Generate(EndOfIf)]
    case While(c, b) =>
      [Generate(StartOfWhile)] + ExprActions(c) + [Generate(StartOfWhileCommands)]
      + StmtActions(b) + [Generate(EndOfWhile)]
    case DoWhile(b, c) =>
      [Generate(StartOfDoWhile)] + StmtActions(b) + ExprActions(c) + [Generate(EndOfDoWhile)]
    case For(c, step, b) =>
      [Generate(StartOfFor)] + ExprActions(c) + [Generate(ForIncDec)] + SimpleActions(step)
      + [Generate(StartOfForCommands)] + StmtActions(b) + [Generate(EndOfFor)]
    case Break => [Generate(BreakRule)]
    case Continue => [Generate(ContinueRule)]
    case Call(r, e) => ExprActions(e) + [Generate(ReportRule(r))]
    case Printf(f, args) =>
      [PushString(f), Generate(VargStart)] + ArgsActions(args) + [Generate(PrintfRule)]
  }

  function BranchesActions(r: Branches): seq<Action> {
    match r
    case ElsIf(c, b, rest) =>
      [Generate(JmpToEndAndJzCompleted)] + ExprActions(c) + [Generate(Jz)] + StmtActions(b)
      + BranchesActions(rest)
    case Else(b) => [Generate(JmpToEndAndJzCompleted)] + StmtActions(b)
  }
}
