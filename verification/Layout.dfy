/**
 The code of a script written down directly: every address is computed from the
 sizes of the parts, nothing is patched.  The one-pass generator is proved to
 produce exactly this code.
 */
module Layout {
  import opened Words
  import opened Script
  import opened Codegen

  // ---------------------------------------------------------------- expressions

  /** The temporary map after the code of `e`: a compound expression holds its destination. */
  function ExprTemps(e: Expr, tm: seq<bool>): (r: seq<bool>)
    ensures |r| == |tm|
    decreases e, 1
  {
    if Leaf(e) then tm else Take(tm, Dest(e, tm))
  }

  /** The slot a compound expression leaves its value in. */
  function Dest(e: Expr, tm: seq<bool>): nat
    requires !Leaf(e)
    decreases e, 0
  {
    match e
    case Unary(_, a) => FirstFree(ExprTemps(a, tm))
    case Binary(_, l, r) => FirstFree(ExprTemps(r, ExprTemps(l, tm)))
  }

  /** The token that stands for `e` on the operand stack. */
  function ExprToken(e: Expr, tm: seq<bool>, ids: seq<string>): Token {
    match e
    case Number(n) => NumberTok(n)
    case Read(p) => PlaceTok(p, Known(p, ids))
    case _ => TempTok(Dest(e, tm))
  }

  function ExprSymbol(e: Expr, tm: seq<bool>, ids: seq<string>): Cell {
    Symbol(ExprToken(e, tm, ids), ids)
  }

  function ExprSize(e: Expr): nat {
    match e
    case Number(_) => 0
    case Read(_) => 0
    case Unary(_, a) => ExprSize(a) + 3
    case Binary(_, l, r) => ExprSize(l) + ExprSize(r) + 4
  }

  function ExprCode(e: Expr, tm: seq<bool>, ids: seq<string>): (c: seq<Cell>)
    ensures |c| == ExprSize(e)
  {
    match e
    case Number(_) => []
    case Read(_) => []
    case Unary(op, a) =>
      ExprCode(a, tm, ids) + [OpCell(UnaryCode(op)), ExprSymbol(a, tm, ids), TempCell(Dest(e, tm))]
    case Binary(op, l, r) =>
      var tl := ExprTemps(l, tm);
      ExprCode(l, tm, ids) + ExprCode(r, tl, ids)
      + [OpCell(BinaryCode(op)), ExprSymbol(r, tl, ids), ExprSymbol(l, tm, ids), TempCell(Dest(e, tm))]
  }

  /** Every variable of `e` has an identifier. */
  predicate ExprKnown(e: Expr, ids: seq<string>) {
    match e
    case Number(_) => true
    case Read(p) => Known(p, ids)
    case Unary(_, a) => ExprKnown(a, ids)
    case Binary(_, l, r) => ExprKnown(l, ids) && ExprKnown(r, ids)
  }

  /** A free temporary is found wherever the code of `e` needs one. */
  predicate ExprFits(e: Expr, tm: seq<bool>) {
    match e
    case Number(_) => true
    case Read(_) => true
    case Unary(_, a) => ExprFits(a, tm) && Dest(e, tm) < |tm|
    case Binary(_, l, r) => ExprFits(l, tm) && ExprFits(r, ExprTemps(l, tm)) && Dest(e, tm) < |tm|
  }

  predicate ExprOk(e: Expr, tm: seq<bool>, ids: seq<string>) {
    ExprKnown(e, ids) && ExprFits(e, tm)
  }

  // ---------------------------------------------------------------- argument lists

  function ArgsTemps(args: seq<Expr>, tm: seq<bool>): (r: seq<bool>)
    ensures |r| == |tm|
    decreases |args|
  {
    if args == [] then tm else ArgsTemps(args[1..], ExprTemps(args[0], tm))
  }

  function ArgsSize(args: seq<Expr>): nat {
    if args == [] then 0 else ExprSize(args[0]) + ArgsSize(args[1..])
  }

  function ArgsCode(args: seq<Expr>, tm: seq<bool>, ids: seq<string>): (c: seq<Cell>)
    ensures |c| == ArgsSize(args)
    decreases |args|
  {
    if args == [] then []
    else ExprCode(args[0], tm, ids) + ArgsCode(args[1..], ExprTemps(args[0], tm), ids)
  }

  function ArgsTokens(args: seq<Expr>, tm: seq<bool>, ids: seq<string>): (ts: seq<Token>)
    ensures |ts| == |args|
    ensures forall t :: t in ts ==> Operand(t)
    decreases |args|
  {
    if args == [] then []
    else [ExprToken(args[0], tm, ids)] + ArgsTokens(args[1..], ExprTemps(args[0], tm), ids)
  }

  predicate ArgsOk(args: seq<Expr>, tm: seq<bool>, ids: seq<string>)
    decreases |args|
  {
    args == [] || (ExprOk(args[0], tm, ids) && ArgsOk(args[1..], ExprTemps(args[0], tm), ids))
  }

  // ---------------------------------------------------------------- simple statements

  function SimpleIds(a: Simple, ids: seq<string>): (r: seq<string>)
    ensures ids <= r
  {
    if a.Assign? then Define(a.place, ids) else ids
  }

  function SimpleSize(a: Simple): nat {
    if a.Assign? then ExprSize(a.value) + 3 else 2
  }

  function SimpleCode(a: Simple, tm: seq<bool>, ids: seq<string>): (c: seq<Cell>)
    ensures |c| == SimpleSize(a)
  {
    match a
    case Assign(p, e) =>
      ExprCode(e, tm, ids) + [OpCell(MovCode), ExprSymbol(e, tm, ids), PlaceCell(p, Define(p, ids))]
    case Increment(p) => [OpCell(IncCode), PlaceCell(p, ids)]
    case Decrement(p) => [OpCell(DecCode), PlaceCell(p, ids)]
  }

  predicate SimpleOk(a: Simple, tm: seq<bool>, ids: seq<string>) {
    if a.Assign? then ExprOk(a.value, tm, ids) else Known(a.place, ids)
  }

  // ---------------------------------------------------------------- statements

  /** The temporary map after a statement: only `for` conditions and print-like calls keep a slot. */
  function StmtTemps(s: Stmt, tm: seq<bool>): (r: seq<bool>)
    ensures |r| == |tm|
    decreases s
  {
    match s
    case Seq(a, b) => StmtTemps(b, StmtTemps(a, tm))
    case If(_, t, r) => BranchesTemps(r, StmtTemps(t, tm))
    case While(_, b) => StmtTemps(b, tm)
    case DoWhile(b, _) => StmtTemps(b, tm)
    case For(c, _, b) => StmtTemps(b, ExprTemps(c, tm))
    case Call(_, e) => ExprTemps(e, tm)
    case _ => tm
  }

  function BranchesTemps(r: Branches, tm: seq<bool>): (t: seq<bool>)
    ensures |t| == |tm|
    decreases r
  {
    match r
    case ElsIf(_, b, rest) => BranchesTemps(rest, StmtTemps(b, tm))
    case Else(b) => StmtTemps(b, tm)
  }

  /** The identifier table after a statement. */
  function StmtIds(s: Stmt, ids: seq<string>): (r: seq<string>)
    ensures ids <= r
    decreases s
  {
    match s
    case Seq(a, b) => StmtIds(b, StmtIds(a, ids))
    case Do(a) => SimpleIds(a, ids)
    case If(_, t, r) => BranchesIds(r, StmtIds(t, ids))
    case While(_, b) => StmtIds(b, ids)
    case DoWhile(b, _) => StmtIds(b, ids)
    case For(_, step, b) => StmtIds(b, SimpleIds(step, ids))
    case _ => ids
  }

  function BranchesIds(r: Branches, ids: seq<string>): (t: seq<string>)
    ensures ids <= t
    decreases r
  {
    match r
    case ElsIf(_, b, rest) => BranchesIds(rest, StmtIds(b, ids))
    case Else(b) => StmtIds(b, ids)
  }

  function StmtSize(s: Stmt): nat {
    match s
    case Skip => 0
    case Seq(a, b) => StmtSize(a) + StmtSize(b)
    case Do(a) => SimpleSize(a)
    case If(c, t, r) => ExprSize(c) + 3 + StmtSize(t) + BranchesSize(r)
    case While(c, b) => ExprSize(c) + 3 + StmtSize(b) + 2
    case DoWhile(b, c) => StmtSize(b) + ExprSize(c) + 3
    case For(c, step, b) => ExprSize(c) + 5 + SimpleSize(step) + 2 + StmtSize(b) + 2
    case Break => 2
    case Continue => 2
    case Call(_, e) => ExprSize(e) + 2
    case Printf(f, args) => ArgsSize(args) + 1 + TextSize(f) + 1 + |args|
  }

  function BranchesSize(r: Branches): nat {
    match r
    case ElsIf(c, b, rest) => 2 + ExprSize(c) + 3 + StmtSize(b) + BranchesSize(rest)
    case Else(b) => 2 + StmtSize(b)
  }

  /** A condition and the jump to `target` taken when it is zero. */
  function CondCode(c: Expr, target: nat, tm: seq<bool>, ids: seq<string>): (r: seq<Cell>)
    ensures |r| == ExprSize(c) + 3
  {
    ExprCode(c, tm, ids) + [OpCell(JzCode), NumberCell(target), ExprSymbol(c, tm, ids)]
  }

  /** A while loop around the code of its body. */
  function WhileCells(c: Expr, base: nat, body: seq<Cell>, tm: seq<bool>, ids: seq<string>): (r: seq<Cell>)
    ensures |r| == ExprSize(c) + 3 + |body| + 2
  {
    CondCode(c, base + ExprSize(c) + 3 + |body| + 2, tm, ids) + body + [OpCell(JmpCode), NumberCell(base)]
  }

  /** A do-while loop; `tm` and `ids` are those after the body. */
  function DoWhileCells(body: seq<Cell>, base: nat, c: Expr, tm: seq<bool>, ids: seq<string>): (r: seq<Cell>)
    ensures |r| == |body| + ExprSize(c) + 3
  {
    body + ExprCode(c, tm, ids) + [OpCell(JnzCode), NumberCell(base), ExprSymbol(c, tm, ids)]
  }

  function ForStepAt(c: Expr, base: nat): nat {
    base + ExprSize(c) + 5
  }

  function ForBodyAt(c: Expr, step: Simple, base: nat): nat {
    ForStepAt(c, base) + SimpleSize(step) + 2
  }

  /** The part of a for loop in front of its body: the condition, the jump over the step, the step. */
  function ForHead(c: Expr, step: Simple, base: nat, end: nat, tm: seq<bool>, ids: seq<string>): (r: seq<Cell>)
    ensures |r| == ExprSize(c) + 5 + SimpleSize(step) + 2
  {
    CondCode(c, end, tm, ids) + [OpCell(JmpCode), NumberCell(ForBodyAt(c, step, base))]
    + (SimpleCode(step, ExprTemps(c, tm), ids) + [OpCell(JmpCode), NumberCell(base)])
  }

  function ForCells(c: Expr, step: Simple, base: nat, body: seq<Cell>, tm: seq<bool>, ids: seq<string>): (r: seq<Cell>)
    ensures |r| == ExprSize(c) + 5 + SimpleSize(step) + 2 + |body| + 2
  {
    ForHead(c, step, base, ForBodyAt(c, step, base) + |body| + 2, tm, ids) + body
    + [OpCell(JmpCode), NumberCell(ForStepAt(c, base))]
  }

  function CallCells(r: Report, e: Expr, tm: seq<bool>, ids: seq<string>): (c: seq<Cell>)
    ensures |c| == ExprSize(e) + 2
  {
    ExprCode(e, tm, ids) + [OpCell(ReportCode(r)), ExprSymbol(e, tm, ids)]
  }

  function PrintfCells(f: string, args: seq<Expr>, tm: seq<bool>, ids: seq<string>): (c: seq<Cell>)
    ensures |c| == ArgsSize(args) + 1 + TextSize(f) + 1 + |args|
  {
    ArgsCode(args, tm, ids)
    + ([OpCell(PrintfCode)] + TextCells(f) + [CountCell(|args|)] + SymbolsOf(ArgsTokens(args, tm, ids), ids))
  }

  /**
   The code of a statement that starts at cell `base`, with `brk` and `cont` the
   targets of its own breaks and continues.
   */
  function StmtCode(s: Stmt, base: nat, brk: nat, cont: nat, tm: seq<bool>, ids: seq<string>): (r: seq<Cell>)
    ensures |r| == StmtSize(s)
    decreases s, 1
  {
    match s
    case Skip => []
    case Seq(a, b) => SeqCode(a, b, base, brk, cont, tm, ids)
    case Do(a) => SimpleCode(a, tm, ids)
    case If(c, t, r) => IfCode(c, t, r, base, brk, cont, tm, ids)
    case While(c, b) => WhileCode(c, b, base, cont, tm, ids)
    case DoWhile(b, c) => DoWhileCode(b, c, base, cont, tm, ids)
    case For(c, step, b) => ForCode(c, step, b, base, tm, ids)
    case Break => [OpCell(JmpCode), NumberCell(brk)]
    case Continue => [OpCell(JmpCode), NumberCell(cont)]
    case Call(r, e) => CallCells(r, e, tm, ids)
    case Printf(f, args) => PrintfCells(f, args, tm, ids)
  }

  function SeqCode(a: Stmt, b: Stmt, base: nat, brk: nat, cont: nat, tm: seq<bool>, ids: seq<string>): (r: seq<Cell>)
    ensures |r| == StmtSize(a) + StmtSize(b)
    decreases Seq(a, b), 0
  {
    StmtCode(a, base, brk, cont, tm, ids)
    + StmtCode(b, base + StmtSize(a), brk, cont, StmtTemps(a, tm), StmtIds(a, ids))
  }

  function IfCode(c: Expr, t: Stmt, r: Branches, base: nat, brk: nat, cont: nat, tm: seq<bool>,
      ids: seq<string>): (cells: seq<Cell>)
    ensures |cells| == ExprSize(c) + 3 + StmtSize(t) + BranchesSize(r)
    decreases If(c, t, r), 0
  {
    var start := base + ExprSize(c) + 3;
    var next := start + StmtSize(t);
    CondCode(c, next + 2, tm, ids)
    + (StmtCode(t, start, brk, cont, tm, ids)
       + BranchesCode(r, next, next + BranchesSize(r), brk, cont, StmtTemps(t, tm), StmtIds(t, ids)))
  }

  function WhileCode(c: Expr, b: Stmt, base: nat, cont: nat, tm: seq<bool>, ids: seq<string>): (r: seq<Cell>)
    ensures |r| == ExprSize(c) + 3 + StmtSize(b) + 2
    decreases While(c, b), 0
  {
    var end := base + ExprSize(c) + 3 + StmtSize(b) + 2;
    WhileCells(c, base, StmtCode(b, base + ExprSize(c) + 3, end, cont, tm, ids), tm, ids)
  }

  function DoWhileCode(b: Stmt, c: Expr, base: nat, cont: nat, tm: seq<bool>, ids: seq<string>): (r: seq<Cell>)
    ensures |r| == StmtSize(b) + ExprSize(c) + 3
    decreases DoWhile(b, c), 0
  {
    var end := base + StmtSize(b) + ExprSize(c) + 3;
    DoWhileCells(StmtCode(b, base, end, cont, tm, ids), base, c, StmtTemps(b, tm), StmtIds(b, ids))
  }

  function ForCode(c: Expr, step: Simple, b: Stmt, base: nat, tm: seq<bool>, ids: seq<string>): (r: seq<Cell>)
    ensures |r| == ExprSize(c) + 5 + SimpleSize(step) + 2 + StmtSize(b) + 2
    decreases For(c, step, b), 0
  {
    var end := ForBodyAt(c, step, base) + StmtSize(b) + 2;
    ForCells(c, step, base,
             StmtCode(b, ForBodyAt(c, step, base), end, ForStepAt(c, base), ExprTemps(c, tm), SimpleIds(step, ids)),
             tm, ids)
  }

  /** The code of the later branches; every branch starts with the jump to `end` that closes the one before. */
  function BranchesCode(r: Branches, base: nat, end: nat, brk: nat, cont: nat, tm: seq<bool>,
      ids: seq<string>): (res: seq<Cell>)
    ensures |res| == BranchesSize(r)
    decreases r, 1
  {
    match r
    case ElsIf(c, b, rest) =>
      var start := base + 2 + ExprSize(c) + 3;
      var next := start + StmtSize(b);
      [OpCell(JmpCode), NumberCell(end)]
      + CondCode(c, next + 2, tm, ids)
      + (StmtCode(b, start, brk, cont, tm, ids)
         + BranchesCode(rest, next, end, brk, cont, StmtTemps(b, tm), StmtIds(b, ids)))
    case Else(b) =>
      [OpCell(JmpCode), NumberCell(end)] + StmtCode(b, base + 2, brk, cont, tm, ids)
  }

  /** The addresses of the jump operands of a statement's own breaks, the latest first. */
  function StmtBreaks(s: Stmt, base: nat): seq<nat> {
    match s
    case Seq(a, b) => StmtBreaks(b, base + StmtSize(a)) + StmtBreaks(a, base)
    case If(c, t, r) =>
      var start := base + ExprSize(c) + 3;
      BranchesBreaks(r, start + StmtSize(t)) + StmtBreaks(t, start)
    case Break => [base + 1]
    case _ => []
  }

  function BranchesBreaks(r: Branches, base: nat): seq<nat> {
    match r
    case ElsIf(c, b, rest) =>
      var start := base + 2 + ExprSize(c) + 3;
      BranchesBreaks(rest, start + StmtSize(b)) + StmtBreaks(b, start)
    case Else(b) => StmtBreaks(b, base + 2)
  }

  /**
   When a statement compiles: its variables are assigned before they are read, the
   temporaries suffice, breaks stand inside a loop and continues inside a `for`.
   */
  predicate StmtOk(s: Stmt, inLoop: bool, inFor: bool, tm: seq<bool>, ids: seq<string>)
    decreases s
  {
    match s
    case Skip => true
    case Seq(a, b) =>
      StmtOk(a, inLoop, inFor, tm, ids) && StmtOk(b, inLoop, inFor, StmtTemps(a, tm), StmtIds(a, ids))
    case Do(a) => SimpleOk(a, tm, ids)
    case If(c, t, r) =>
      ExprOk(c, tm, ids) && StmtOk(t, inLoop, inFor, tm, ids)
      && BranchesOk(r, inLoop, inFor, StmtTemps(t, tm), StmtIds(t, ids))
    case While(c, b) => ExprOk(c, tm, ids) && StmtOk(b, true, inFor, tm, ids)
    case DoWhile(b, c) => StmtOk(b, true, inFor, tm, ids) && ExprOk(c, StmtTemps(b, tm), StmtIds(b, ids))
    case For(c, step, b) =>
      ExprOk(c, tm, ids) && SimpleOk(step, ExprTemps(c, tm), ids)
      && StmtOk(b, true, true, ExprTemps(c, tm), SimpleIds(step, ids))
    case Break => inLoop
    case Continue => inFor
    case Call(_, e) => ExprOk(e, tm, ids)
    case Printf(f, args) => ArgsOk(args, tm, ids) && Specifiers(f) == |args|
  }

  predicate BranchesOk(r: Branches, inLoop: bool, inFor: bool, tm: seq<bool>, ids: seq<string>)
    decreases r
  {
    match r
    case ElsIf(c, b, rest) =>
      ExprOk(c, tm, ids) && StmtOk(b, inLoop, inFor, tm, ids)
      && BranchesOk(rest, inLoop, inFor, StmtTemps(b, tm), StmtIds(b, ids))
    case Else(b) => StmtOk(b, inLoop, inFor, tm, ids)
  }

  // ---------------------------------------------------------------- one unfolding each

  /** The code of a compound statement is that of its form. */
  lemma CodeIs(s: Stmt, base: nat, brk: nat, cont: nat, tm: seq<bool>, ids: seq<string>)
    ensures s.Seq? ==> StmtCode(s, base, brk, cont, tm, ids) == SeqCode(s.first, s.second, base, brk, cont, tm, ids)
    ensures s.If? ==> StmtCode(s, base, brk, cont, tm, ids) == IfCode(s.cond, s.thn, s.rest, base, brk, cont, tm, ids)
    ensures s.While? ==> StmtCode(s, base, brk, cont, tm, ids) == WhileCode(s.cond, s.body, base, cont, tm, ids)
    ensures s.DoWhile? ==> StmtCode(s, base, brk, cont, tm, ids) == DoWhileCode(s.body, s.cond, base, cont, tm, ids)
    ensures s.For? ==> StmtCode(s, base, brk, cont, tm, ids) == ForCode(s.cond, s.step, s.body, base, tm, ids)
  {
    hide SeqCode, IfCode, WhileCode, DoWhileCode, ForCode, SimpleCode, CallCells, PrintfCells, StmtSize;
  }

  lemma SeqUnfolds(a: Stmt, b: Stmt, base: nat, brk: nat, cont: nat, tm: seq<bool>, ids: seq<string>)
    ensures
      var s, n := Seq(a, b), base + StmtSize(a);
      && StmtSize(s) == StmtSize(a) + StmtSize(b)
      && StmtCode(s, base, brk, cont, tm, ids) ==
         StmtCode(a, base, brk, cont, tm, ids) + StmtCode(b, n, brk, cont, StmtTemps(a, tm), StmtIds(a, ids))
      && StmtBreaks(s, base) == StmtBreaks(b, n) + StmtBreaks(a, base)
      && StmtTemps(s, tm) == StmtTemps(b, StmtTemps(a, tm))
      && StmtIds(s, ids) == StmtIds(b, StmtIds(a, ids))
      && StmtActions(s) == StmtActions(a) + StmtActions(b)
  {
    hide *;
    SeqCodeIs(a, b, base, brk, cont, tm, ids);
    SeqSizes(a, b, base);
    SeqFlow(a, b, tm, ids);
    SeqActions(a, b);
  }

  lemma SeqCodeIs(a: Stmt, b: Stmt, base: nat, brk: nat, cont: nat, tm: seq<bool>, ids: seq<string>)
    ensures StmtCode(Seq(a, b), base, brk, cont, tm, ids) ==
            StmtCode(a, base, brk, cont, tm, ids)
            + StmtCode(b, base + StmtSize(a), brk, cont, StmtTemps(a, tm), StmtIds(a, ids))
  {
    CodeIs(Seq(a, b), base, brk, cont, tm, ids);
    hide StmtCode, StmtSize, StmtTemps, StmtIds;
  }

  lemma SeqSizes(a: Stmt, b: Stmt, base: nat)
    ensures StmtSize(Seq(a, b)) == StmtSize(a) + StmtSize(b)
    ensures StmtBreaks(Seq(a, b), base) == StmtBreaks(b, base + StmtSize(a)) + StmtBreaks(a, base)
  {
    hide ExprSize, SimpleSize, ArgsSize, TextSize, BranchesSize, BranchesBreaks;
  }

  lemma SeqFlow(a: Stmt, b: Stmt, tm: seq<bool>, ids: seq<string>)
    ensures StmtTemps(Seq(a, b), tm) == StmtTemps(b, StmtTemps(a, tm))
    ensures StmtIds(Seq(a, b), ids) == StmtIds(b, StmtIds(a, ids))
  {
    hide ExprTemps, SimpleIds, BranchesTemps, BranchesIds;
  }

  lemma SeqActions(a: Stmt, b: Stmt)
    ensures StmtActions(Seq(a, b)) == StmtActions(a) + StmtActions(b)
  {
    hide ExprActions, SimpleActions, ArgsActions, BranchesActions;
  }

  lemma IfUnfolds(c: Expr, t: Stmt, r: Branches, base: nat, brk: nat, cont: nat, tm: seq<bool>, ids: seq<string>)
    ensures
      var s := If(c, t, r);
      var start := base + ExprSize(c) + 3;
      var next := start + StmtSize(t);
      && StmtSize(s) == ExprSize(c) + 3 + StmtSize(t) + BranchesSize(r)
      && StmtCode(s, base, brk, cont, tm, ids) ==
         CondCode(c, next + 2, tm, ids)
         + (StmtCode(t, start, brk, cont, tm, ids)
            + BranchesCode(r, next, next + BranchesSize(r), brk, cont, StmtTemps(t, tm), StmtIds(t, ids)))
      && StmtBreaks(s, base) == BranchesBreaks(r, next) + StmtBreaks(t, start)
      && StmtTemps(s, tm) == BranchesTemps(r, StmtTemps(t, tm))
      && StmtIds(s, ids) == BranchesIds(r, StmtIds(t, ids))
  {
    CodeIs(If(c, t, r), base, brk, cont, tm, ids);
    hide StmtCode, BranchesCode, CondCode, ExprSize, SimpleSize, ArgsSize, TextSize, ExprTemps, SimpleIds;
  }

  lemma ElsIfUnfolds(c: Expr, b: Stmt, rest: Branches, base: nat, end: nat, brk: nat, cont: nat, tm: seq<bool>,
      ids: seq<string>)
    ensures
      var r := ElsIf(c, b, rest);
      var start := base + 2 + ExprSize(c) + 3;
      var next := start + StmtSize(b);
      && BranchesSize(r) == 2 + ExprSize(c) + 3 + StmtSize(b) + BranchesSize(rest)
      && BranchesCode(r, base, end, brk, cont, tm, ids) ==
         [OpCell(JmpCode), NumberCell(end)] + CondCode(c, next + 2, tm, ids)
         + (StmtCode(b, start, brk, cont, tm, ids)
            + BranchesCode(rest, next, end, brk, cont, StmtTemps(b, tm), StmtIds(b, ids)))
      && BranchesBreaks(r, base) == BranchesBreaks(rest, next) + StmtBreaks(b, start)
      && BranchesTemps(r, tm) == BranchesTemps(rest, StmtTemps(b, tm))
      && BranchesIds(r, ids) == BranchesIds(rest, StmtIds(b, ids))
  {
    hide *;
    ElsIfCode(c, b, rest, base, end, brk, cont, tm, ids);
    ElsIfSizes(c, b, rest, base);
    ElsIfFlow(c, b, rest, tm, ids);
  }

  lemma ElsIfSizes(c: Expr, b: Stmt, rest: Branches, base: nat)
    ensures
      var r := ElsIf(c, b, rest);
      var start := base + 2 + ExprSize(c) + 3;
      && BranchesSize(r) == 2 + ExprSize(c) + 3 + StmtSize(b) + BranchesSize(rest)
      && BranchesBreaks(r, base) == BranchesBreaks(rest, start + StmtSize(b)) + StmtBreaks(b, start)
  {
    hide StmtSize, StmtBreaks, ExprSize;
  }

  lemma ElsIfFlow(c: Expr, b: Stmt, rest: Branches, tm: seq<bool>, ids: seq<string>)
    ensures BranchesTemps(ElsIf(c, b, rest), tm) == BranchesTemps(rest, StmtTemps(b, tm))
    ensures BranchesIds(ElsIf(c, b, rest), ids) == BranchesIds(rest, StmtIds(b, ids))
  {
    hide StmtTemps, StmtIds;
  }

  lemma ElsIfCode(c: Expr, b: Stmt, rest: Branches, base: nat, end: nat, brk: nat, cont: nat, tm: seq<bool>,
      ids: seq<string>)
    ensures
      var start := base + 2 + ExprSize(c) + 3;
      var next := start + StmtSize(b);
      BranchesCode(ElsIf(c, b, rest), base, end, brk, cont, tm, ids) ==
         [OpCell(JmpCode), NumberCell(end)] + CondCode(c, next + 2, tm, ids)
         + (StmtCode(b, start, brk, cont, tm, ids)
            + BranchesCode(rest, next, end, brk, cont, StmtTemps(b, tm), StmtIds(b, ids)))
  {
    hide StmtCode, StmtSize, StmtTemps, StmtIds, BranchesSize, ExprSize, CondCode;
  }

  lemma ElseUnfolds(b: Stmt, base: nat, end: nat, brk: nat, cont: nat, tm: seq<bool>, ids: seq<string>)
    ensures
      var r := Else(b);
      && BranchesSize(r) == 2 + StmtSize(b)
      && BranchesCode(r, base, end, brk, cont, tm, ids) ==
         [OpCell(JmpCode), NumberCell(end)] + StmtCode(b, base + 2, brk, cont, tm, ids)
      && BranchesBreaks(r, base) == StmtBreaks(b, base + 2)
      && BranchesTemps(r, tm) == StmtTemps(b, tm)
      && BranchesIds(r, ids) == StmtIds(b, ids)
  {
    hide StmtCode;
  }

  lemma WhileUnfolds(c: Expr, b: Stmt, base: nat, brk: nat, cont: nat, tm: seq<bool>, ids: seq<string>)
    ensures
      var s := While(c, b);
      var end := base + ExprSize(c) + 3 + StmtSize(b) + 2;
      && StmtSize(s) == ExprSize(c) + 3 + StmtSize(b) + 2
      && StmtCode(s, base, brk, cont, tm, ids) ==
         WhileCells(c, base, StmtCode(b, base + ExprSize(c) + 3, end, cont, tm, ids), tm, ids)
      && StmtBreaks(s, base) == []
      && StmtTemps(s, tm) == StmtTemps(b, tm)
      && StmtIds(s, ids) == StmtIds(b, ids)
  {
    CodeIs(While(c, b), base, brk, cont, tm, ids);
    hide StmtCode, BranchesCode, CondCode, WhileCells, DoWhileCells, ForCells, SimpleIds, ExprTemps, ExprSize,
      SimpleSize, ArgsSize, TextSize;
  }

  lemma DoWhileUnfolds(b: Stmt, c: Expr, base: nat, brk: nat, cont: nat, tm: seq<bool>, ids: seq<string>)
    ensures
      var s := DoWhile(b, c);
      var end := base + StmtSize(b) + ExprSize(c) + 3;
      && StmtSize(s) == StmtSize(b) + ExprSize(c) + 3
      && StmtCode(s, base, brk, cont, tm, ids) ==
         DoWhileCells(StmtCode(b, base, end, cont, tm, ids), base, c, StmtTemps(b, tm), StmtIds(b, ids))
      && StmtBreaks(s, base) == []
      && StmtTemps(s, tm) == StmtTemps(b, tm)
      && StmtIds(s, ids) == StmtIds(b, ids)
  {
    CodeIs(DoWhile(b, c), base, brk, cont, tm, ids);
    hide StmtCode, BranchesCode, CondCode, WhileCells, DoWhileCells, ForCells, SimpleIds, ExprTemps, ExprSize,
      SimpleSize, ArgsSize, TextSize;
  }

  lemma ForUnfolds(c: Expr, step: Simple, b: Stmt, base: nat, brk: nat, cont: nat, tm: seq<bool>, ids: seq<string>)
    ensures
      var s := For(c, step, b);
      var stepAt, bodyAt := ForStepAt(c, base), ForBodyAt(c, step, base);
      var end := bodyAt + StmtSize(b) + 2;
      && StmtSize(s) == ExprSize(c) + 5 + SimpleSize(step) + 2 + StmtSize(b) + 2
      && StmtCode(s, base, brk, cont, tm, ids) ==
         ForCells(c, step, base, StmtCode(b, bodyAt, end, stepAt, ExprTemps(c, tm), SimpleIds(step, ids)), tm, ids)
      && StmtBreaks(s, base) == []
      && StmtTemps(s, tm) == StmtTemps(b, ExprTemps(c, tm))
      && StmtIds(s, ids) == StmtIds(b, SimpleIds(step, ids))
  {
    CodeIs(For(c, step, b), base, brk, cont, tm, ids);
    hide StmtCode, BranchesCode, CondCode, WhileCells, DoWhileCells, ForCells, SimpleIds, ExprTemps, ExprSize,
      SimpleSize, ArgsSize, TextSize;
  }

  lemma OkElsIf(c: Expr, b: Stmt, rest: Branches, inLoop: bool, inFor: bool, tm: seq<bool>, ids: seq<string>)
    ensures BranchesOk(ElsIf(c, b, rest), inLoop, inFor, tm, ids) <==>
            ExprOk(c, tm, ids) && StmtOk(b, inLoop, inFor, tm, ids)
            && BranchesOk(rest, inLoop, inFor, StmtTemps(b, tm), StmtIds(b, ids))
  {
  }

  lemma OkElse(b: Stmt, inLoop: bool, inFor: bool, tm: seq<bool>, ids: seq<string>)
    ensures BranchesOk(Else(b), inLoop, inFor, tm, ids) <==> StmtOk(b, inLoop, inFor, tm, ids)
  {
  }
}
