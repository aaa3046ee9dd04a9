/**
 Every jump of compiled code is closed: its operand is a number, and that
 number is the start of an instruction or the end of the code.
 */
module Jumps {
  import opened Words
  import opened Script
  import opened Codegen
  import opened Layout
  import opened Stacks
  import opened Refinement
  import opened Preservation
  import Compilation
  import Misuse
  import Simulation

  predicate JumpOp(c: Cell) {
    c == OpCell(JmpCode) || c == OpCell(JzCode) || c == OpCell(JnzCode)
  }

  /** The start of an instruction, or the end of the code. */
  predicate Target(code: seq<Cell>, t: int) {
    t == |code| || (0 <= t < |code| && code[t].OpCell?)
  }

  /** All jumps from cell `i` up to cell `i + n` go to targets. */
  predicate Closed(code: seq<Cell>, i: int, n: nat) {
    forall k {:trigger code[k]} :: i <= k < i + n && 0 <= k < |code| && JumpOp(code[k]) ==>
      k + 1 < |code| && code[k + 1].NumberCell? && Target(code, code[k + 1].value)
  }

  lemma ClosedTwo(code: seq<Cell>, i: int, m: nat, n: nat)
    requires Closed(code, i, m) && Closed(code, i + m, n)
    ensures Closed(code, i, m + n)
  {
  }

  /** A piece of code without jumps that starts with an operator, or is empty. */
  lemma PlainClosed(code: seq<Cell>, i: int, cells: seq<Cell>)
    requires At(code, i, cells) && (forall k :: 0 <= k < |cells| ==> !JumpOp(cells[k]))
    ensures Closed(code, i, |cells|)
  {
    forall k | i <= k < i + |cells| && 0 <= k < |code|
      ensures !JumpOp(code[k])
    {
      AtIndex(code, i, cells, k - i);
    }
  }

  lemma StartsTarget(code: seq<Cell>, i: int, cells: seq<Cell>)
    requires At(code, i, cells) && (cells == [] || cells[0].OpCell?) && Target(code, i + |cells|)
    ensures Target(code, i)
  {
    if cells != [] {
      AtIndex(code, i, cells, 0);
    }
  }

  lemma JumpClosed(code: seq<Cell>, i: int, op: Opcode, t: nat, rest: seq<Cell>)
    requires At(code, i, [OpCell(op), NumberCell(t)] + rest) && Target(code, t)
    requires forall k :: 0 <= k < |rest| ==> !rest[k].OpCell?
    ensures Closed(code, i, 2 + |rest|) && Target(code, i)
  {
    var cells := [OpCell(op), NumberCell(t)] + rest;
    AtIndex(code, i, cells, 0);
    AtIndex(code, i, cells, 1);
    forall k | i < k < i + |cells| && 0 <= k < |code|
      ensures !JumpOp(code[k])
    {
      AtIndex(code, i, cells, k - i);
    }
  }

  // ---------------------------------------------------------------- operands and expressions

  lemma SymbolNoOp(t: Token, ids: seq<string>)
    ensures !Symbol(t, ids).OpCell?
  {
  }

  lemma {:induction false} ExprNoJumps(e: Expr, tm: seq<bool>, ids: seq<string>)
    ensures
      var c := ExprCode(e, tm, ids);
      (c == [] || c[0].OpCell?) && (forall k :: 0 <= k < |c| ==> !JumpOp(c[k]))
    decreases e
  {
    hide ExprTemps, Symbol, ExprToken, ExprSize;
    match e
    case Number(_) =>
    case Read(_) =>
    case Unary(op, a) =>
      ExprNoJumps(a, tm, ids);
      SymbolNoOp(ExprToken(a, tm, ids), ids);
    case Binary(op, l, r) =>
      ExprNoJumps(l, tm, ids);
      ExprNoJumps(r, ExprTemps(l, tm), ids);
      SymbolNoOp(ExprToken(l, tm, ids), ids);
      SymbolNoOp(ExprToken(r, ExprTemps(l, tm), ids), ids);
  }

  lemma ExprClosed(code: seq<Cell>, i: int, e: Expr, tm: seq<bool>, ids: seq<string>)
    requires At(code, i, ExprCode(e, tm, ids)) && Target(code, i + ExprSize(e))
    ensures Closed(code, i, ExprSize(e)) && Target(code, i)
  {
    hide ExprCode, At, ExprSize, Closed, Target;
    ExprNoJumps(e, tm, ids);
    PlainClosed(code, i, ExprCode(e, tm, ids));
    StartsTarget(code, i, ExprCode(e, tm, ids));
  }

  /** A condition with its jump; `op` is JZ or JNZ. */
  lemma CondClosed(code: seq<Cell>, i: int, c: Expr, op: Opcode, t: nat, tm: seq<bool>, ids: seq<string>)
    requires At(code, i, ExprCode(c, tm, ids) + [OpCell(op), NumberCell(t), ExprSymbol(c, tm, ids)]) && Target(code, t)
    ensures Closed(code, i, ExprSize(c) + 3) && Target(code, i)
  {
    hide ExprCode, At, ExprSize, Closed, Target, ExprToken, Symbol;
    var x := ExprCode(c, tm, ids);
    var rest := [ExprSymbol(c, tm, ids)];
    SymbolNoOp(ExprToken(c, tm, ids), ids);
    assert [OpCell(op), NumberCell(t), ExprSymbol(c, tm, ids)] == [OpCell(op), NumberCell(t)] + rest;
    AtSplit(code, i, x, [OpCell(op), NumberCell(t)] + rest);
    JumpClosed(code, i + |x|, op, t, rest);
    ExprClosed(code, i, c, tm, ids);
    ClosedTwo(code, i, ExprSize(c), 3);
  }

  lemma JmpClosed(code: seq<Cell>, i: int, t: nat)
    requires At(code, i, [OpCell(JmpCode), NumberCell(t)]) && Target(code, t)
    ensures Closed(code, i, 2) && Target(code, i)
  {
    assert [OpCell(JmpCode), NumberCell(t)] == [OpCell(JmpCode), NumberCell(t)] + [];
    JumpClosed(code, i, JmpCode, t, []);
  }

  /** An expression followed by an instruction that is no jump. */
  lemma ExprThen(code: seq<Cell>, i: int, e: Expr, tail: seq<Cell>, tm: seq<bool>, ids: seq<string>)
    requires At(code, i, ExprCode(e, tm, ids) + tail)
    requires tail != [] && tail[0].OpCell? && (forall k :: 0 <= k < |tail| ==> !JumpOp(tail[k])) &&
      Target(code, i + ExprSize(e) + |tail|)
    ensures Closed(code, i, ExprSize(e) + |tail|) && Target(code, i)
  {
    hide ExprCode, At, ExprSize, Closed, Target;
    AtSplit(code, i, ExprCode(e, tm, ids), tail);
    PlainClosed(code, i + ExprSize(e), tail);
    StartsTarget(code, i + ExprSize(e), tail);
    ExprClosed(code, i, e, tm, ids);
    ClosedTwo(code, i, ExprSize(e), |tail|);
  }

  lemma SimpleClosed(code: seq<Cell>, i: int, a: Simple, tm: seq<bool>, ids: seq<string>)
    requires At(code, i, SimpleCode(a, tm, ids)) && Target(code, i + SimpleSize(a))
    ensures Closed(code, i, SimpleSize(a)) && Target(code, i)
  {
    hide ExprCode, At, ExprSize, Closed, Target, ExprToken, Symbol, Define;
    match a
    case Assign(p, e) =>
      SymbolNoOp(ExprToken(e, tm, ids), ids);
      ExprThen(code, i, e, [OpCell(MovCode), ExprSymbol(e, tm, ids), PlaceCell(p, Define(p, ids))], tm, ids);
    case _ =>
      PlainClosed(code, i, SimpleCode(a, tm, ids));
      StartsTarget(code, i, SimpleCode(a, tm, ids));
  }

  lemma {:induction false} SymbolsNoOp(ts: seq<Token>, ids: seq<string>)
    ensures forall k :: 0 <= k < |ts| ==> !SymbolsOf(ts, ids)[k].OpCell?
  {
    if ts != [] {
      SymbolNoOp(ts[0], ids);
      SymbolsNoOp(ts[1..], ids);
    }
  }

  lemma {:induction false} ArgsNoJumps(args: seq<Expr>, tm: seq<bool>, ids: seq<string>)
    ensures
      var c := ArgsCode(args, tm, ids);
      (c == [] || c[0].OpCell?) && (forall k :: 0 <= k < |c| ==> !JumpOp(c[k]))
    decreases |args|
  {
    if args != [] {
      hide ExprCode, ExprTemps, ExprSize;
      ExprNoJumps(args[0], tm, ids);
      ArgsNoJumps(args[1..], ExprTemps(args[0], tm), ids);
    }
  }

  lemma PrintfClosed(code: seq<Cell>, i: int, f: string, args: seq<Expr>, tm: seq<bool>, ids: seq<string>)
    requires At(code, i, PrintfCells(f, args, tm, ids)) && Target(code, i + |PrintfCells(f, args, tm, ids)|)
    ensures Closed(code, i, |PrintfCells(f, args, tm, ids)|) && Target(code, i)
  {
    hide At, ArgsCode, ArgsTokens, SymbolsOf, ArgsSize, Closed, Target;
    ArgsNoJumps(args, tm, ids);
    SymbolsNoOp(ArgsTokens(args, tm, ids), ids);
    var c := PrintfCells(f, args, tm, ids);
    assert forall k :: 0 <= k < |TextCells(f)| ==> !TextCells(f)[k].OpCell?;
    PlainClosed(code, i, c);
    StartsTarget(code, i, c);
  }

  // ---------------------------------------------------------------- statements

  lemma {:induction false} StmtClosed(code: seq<Cell>, i: nat, s: Stmt, brk: nat, cont: nat, inLoop: bool, inFor: bool,
      tm: seq<bool>, ids: seq<string>)
    requires At(code, i, StmtCode(s, i, brk, cont, tm, ids)) && StmtOk(s, inLoop, inFor, tm, ids)
    requires Target(code, i + StmtSize(s)) && (inLoop ==> Target(code, brk)) && (inFor ==> Target(code, cont))
    ensures Closed(code, i, StmtSize(s)) && Target(code, i)
    decreases s, 1
  {
    hide At, Target, Closed, StmtCode, StmtSize, StmtOk;
    match s
    case Seq(a, b) =>
      SeqClosed(code, i, a, b, brk, cont, inLoop, inFor, tm, ids);
    case If(c, t, r) =>
      IfClosed(code, i, c, t, r, brk, cont, inLoop, inFor, tm, ids);
    case While(c, b) =>
      WhileClosed(code, i, c, b, brk, cont, inLoop, inFor, tm, ids);
    case DoWhile(b, c) =>
      DoWhileClosed(code, i, b, c, brk, cont, inLoop, inFor, tm, ids);
    case For(c, step, b) =>
      ForClosed(code, i, c, step, b, brk, cont, inLoop, inFor, tm, ids);
    case _ =>
      PlainStmtClosed(code, i, s, brk, cont, inLoop, inFor, tm, ids);
  }

  lemma PlainStmtClosed(code: seq<Cell>, i: nat, s: Stmt, brk: nat, cont: nat, inLoop: bool, inFor: bool,
      tm: seq<bool>, ids: seq<string>)
    requires At(code, i, StmtCode(s, i, brk, cont, tm, ids)) && StmtOk(s, inLoop, inFor, tm, ids)
    requires Target(code, i + StmtSize(s)) && (inLoop ==> Target(code, brk)) && (inFor ==> Target(code, cont))
    requires !s.Seq? && !s.If? && !s.While? && !s.DoWhile? && !s.For?
    ensures Closed(code, i, StmtSize(s)) && Target(code, i)
  {
    hide At, Target, Closed, CallCells, PrintfCells, SimpleCode, SimpleSize, ExprSize, ArgsSize, TextSize, ExprOk,
      SimpleOk, ArgsOk, Specifiers;
    match s
    case Skip =>
      PlainClosed(code, i, []);
    case Do(a) =>
      SimpleClosed(code, i, a, tm, ids);
    case Break =>
      JmpClosed(code, i, brk);
    case Continue =>
      JmpClosed(code, i, cont);
    case Call(r, e) =>
      CallClosed(code, i, r, e, tm, ids);
    case Printf(f, args) =>
      PrintfClosed(code, i, f, args, tm, ids);
  }

  lemma {:induction false} SeqClosed(code: seq<Cell>, i: nat, a: Stmt, b: Stmt, brk: nat, cont: nat, inLoop: bool,
      inFor: bool, tm: seq<bool>, ids: seq<string>)
    requires
      var s := Seq(a, b);
      At(code, i, StmtCode(s, i, brk, cont, tm, ids)) && StmtOk(s, inLoop, inFor, tm, ids) &&
        Target(code, i + StmtSize(s))
    requires (inLoop ==> Target(code, brk)) && (inFor ==> Target(code, cont))
    ensures Closed(code, i, StmtSize(Seq(a, b))) && Target(code, i)
    decreases Seq(a, b), 0
  {
    hide At, Target, Closed, StmtCode, StmtSize, StmtTemps, StmtIds;
    SeqUnfolds(a, b, i, brk, cont, tm, ids);
    var j, ta, ia := i + StmtSize(a), StmtTemps(a, tm), StmtIds(a, ids);
    AtSplit(code, i, StmtCode(a, i, brk, cont, tm, ids), StmtCode(b, j, brk, cont, ta, ia));
    StmtClosed(code, j, b, brk, cont, inLoop, inFor, ta, ia);
    StmtClosed(code, i, a, brk, cont, inLoop, inFor, tm, ids);
    ClosedTwo(code, i, StmtSize(a), StmtSize(b));
  }

  lemma CallClosed(code: seq<Cell>, i: int, r: Report, e: Expr, tm: seq<bool>, ids: seq<string>)
    requires At(code, i, CallCells(r, e, tm, ids)) && Target(code, i + ExprSize(e) + 2)
    ensures Closed(code, i, ExprSize(e) + 2) && Target(code, i)
  {
    hide ExprCode, At, ExprSize, Closed, Target, ExprToken, Symbol;
    SymbolNoOp(ExprToken(e, tm, ids), ids);
    ExprThen(code, i, e, [OpCell(ReportCode(r)), ExprSymbol(e, tm, ids)], tm, ids);
  }

  lemma {:induction false} IfClosed(code: seq<Cell>, i: nat, c: Expr, t: Stmt, r: Branches, brk: nat, cont: nat,
      inLoop: bool, inFor: bool, tm: seq<bool>, ids: seq<string>)
    requires
      var s := If(c, t, r);
      At(code, i, StmtCode(s, i, brk, cont, tm, ids)) && StmtOk(s, inLoop, inFor, tm, ids) &&
        Target(code, i + StmtSize(s))
    requires (inLoop ==> Target(code, brk)) && (inFor ==> Target(code, cont))
    ensures Closed(code, i, StmtSize(If(c, t, r))) && Target(code, i)
    decreases If(c, t, r), 0
  {
    hide At, Target, Closed, ExprCode, ExprSymbol, ExprOk, StmtCode, StmtSize, StmtTemps, StmtIds, ExprSize,
      BranchesCode, BranchesSize;
    IfUnfolds(c, t, r, i, brk, cont, tm, ids);
    var start := i + ExprSize(c) + 3;
    var next := start + StmtSize(t);
    var end := next + BranchesSize(r);
    var tt, it := StmtTemps(t, tm), StmtIds(t, ids);
    var cc, ct, cr := CondCode(c, next + 2, tm, ids), StmtCode(t, start, brk, cont, tm, ids),
        BranchesCode(r, next, end, brk, cont, tt, it);
    AtSplit(code, i, cc, ct + cr);
    AtSplit(code, start, ct, cr);
    BranchesClosed(code, next, r, end, brk, cont, inLoop, inFor, tt, it);
    StmtClosed(code, start, t, brk, cont, inLoop, inFor, tm, ids);
    CondClosed(code, i, c, JzCode, next + 2, tm, ids);
    ClosedTwo(code, start, StmtSize(t), BranchesSize(r));
    ClosedTwo(code, i, ExprSize(c) + 3, StmtSize(t) + BranchesSize(r));
  }

  lemma {:induction false} BranchesClosed(code: seq<Cell>, i: nat, r: Branches, end: nat, brk: nat, cont: nat,
      inLoop: bool, inFor: bool, tm: seq<bool>, ids: seq<string>)
    requires At(code, i, BranchesCode(r, i, end, brk, cont, tm, ids)) && BranchesOk(r, inLoop, inFor, tm, ids)
    requires end == i + BranchesSize(r) && Target(code, end) && (inLoop ==> Target(code, brk)) &&
      (inFor ==> Target(code, cont))
    ensures Closed(code, i, BranchesSize(r)) && Target(code, i) && Target(code, i + 2)
    decreases r, 1
  {
    hide At, Target, Closed, ExprCode, ExprSymbol, ExprOk, StmtCode, StmtSize, StmtTemps, StmtIds, ExprSize,
      BranchesCode, BranchesSize, StmtOk, BranchesOk;
    var jmp := [OpCell(JmpCode), NumberCell(end)];
    match r
    case Else(b) =>
      ElseUnfolds(b, i, end, brk, cont, tm, ids);
      OkElse(b, inLoop, inFor, tm, ids);
      AtSplit(code, i, jmp, StmtCode(b, i + 2, brk, cont, tm, ids));
      StmtClosed(code, i + 2, b, brk, cont, inLoop, inFor, tm, ids);
      JmpClosed(code, i, end);
      ClosedTwo(code, i, 2, StmtSize(b));
    case ElsIf(c, b, rest) =>
      ElsIfUnfolds(c, b, rest, i, end, brk, cont, tm, ids);
      OkElsIf(c, b, rest, inLoop, inFor, tm, ids);
      var start := i + 2 + ExprSize(c) + 3;
      var next := start + StmtSize(b);
      var tb, ib := StmtTemps(b, tm), StmtIds(b, ids);
      var cc, cb, cr := CondCode(c, next + 2, tm, ids), StmtCode(b, start, brk, cont, tm, ids),
          BranchesCode(rest, next, end, brk, cont, tb, ib);
      AtSplit(code, i, jmp + cc, cb + cr);
      AtSplit(code, i, jmp, cc);
      AtSplit(code, start, cb, cr);
      BranchesClosed(code, next, rest, end, brk, cont, inLoop, inFor, tb, ib);
      StmtClosed(code, start, b, brk, cont, inLoop, inFor, tm, ids);
      CondClosed(code, i + 2, c, JzCode, next + 2, tm, ids);
      JmpClosed(code, i, end);
      ClosedTwo(code, start, StmtSize(b), BranchesSize(rest));
      ClosedTwo(code, i + 2, ExprSize(c) + 3, StmtSize(b) + BranchesSize(rest));
      ClosedTwo(code, i, 2, ExprSize(c) + 3 + StmtSize(b) + BranchesSize(rest));
  }

  lemma {:induction false} WhileClosed(code: seq<Cell>, i: nat, c: Expr, b: Stmt, brk: nat, cont: nat, inLoop: bool,
      inFor: bool, tm: seq<bool>, ids: seq<string>)
    requires
      var s := While(c, b);
      At(code, i, StmtCode(s, i, brk, cont, tm, ids)) && StmtOk(s, inLoop, inFor, tm, ids) &&
        Target(code, i + StmtSize(s))
    requires inFor ==> Target(code, cont)
    ensures Closed(code, i, StmtSize(While(c, b))) && Target(code, i)
    decreases While(c, b), 0
  {
    hide At, Target, Closed, ExprCode, ExprSymbol, ExprOk, StmtCode, StmtSize, StmtTemps, StmtIds, ExprSize;
    WhileUnfolds(c, b, i, brk, cont, tm, ids);
    var at := i + ExprSize(c) + 3;
    var end := at + StmtSize(b) + 2;
    var cc, cb, back := CondCode(c, end, tm, ids), StmtCode(b, at, end, cont, tm, ids),
        [OpCell(JmpCode), NumberCell(i)];
    AtSplit(code, i, cc + cb, back);
    AtSplit(code, i, cc, cb);
    CondClosed(code, i, c, JzCode, end, tm, ids);
    JmpClosed(code, at + StmtSize(b), i);
    StmtClosed(code, at, b, end, cont, true, inFor, tm, ids);
    ClosedTwo(code, i, ExprSize(c) + 3, StmtSize(b));
    ClosedTwo(code, i, ExprSize(c) + 3 + StmtSize(b), 2);
  }

  lemma {:induction false} DoWhileClosed(code: seq<Cell>, i: nat, b: Stmt, c: Expr, brk: nat, cont: nat, inLoop: bool,
      inFor: bool, tm: seq<bool>, ids: seq<string>)
    requires
      var s := DoWhile(b, c);
      At(code, i, StmtCode(s, i, brk, cont, tm, ids)) && StmtOk(s, inLoop, inFor, tm, ids) &&
        Target(code, i + StmtSize(s))
    requires inFor ==> Target(code, cont)
    ensures Closed(code, i, StmtSize(DoWhile(b, c))) && Target(code, i)
    decreases DoWhile(b, c), 0
  {
    hide At, Target, Closed, ExprCode, ExprOk, StmtCode, StmtSize, StmtTemps, StmtIds, ExprSize, ExprToken, Symbol;
    DoWhileUnfolds(b, c, i, brk, cont, tm, ids);
    var at, end := i + StmtSize(b), i + StmtSize(b) + ExprSize(c) + 3;
    var tb, ib := StmtTemps(b, tm), StmtIds(b, ids);
    var body, x := StmtCode(b, i, end, cont, tm, ids), ExprCode(c, tb, ib);
    var jnz := [OpCell(JnzCode), NumberCell(i), ExprSymbol(c, tb, ib)];
    assert body + x + jnz == body + (x + jnz);
    AtSplit(code, i, body, x + jnz);
    AtSplit(code, at, x, jnz);
    // the loop's own start is a target only once its body and condition are known to start with operators
    DoWhileStarts(code, i, b, c, end, cont, tm, ids);
    CondClosed(code, at, c, JnzCode, i, tb, ib);
    StmtClosed(code, i, b, end, cont, true, inFor, tm, ids);
    ClosedTwo(code, i, StmtSize(b), ExprSize(c) + 3);
  }

  lemma DoWhileStarts(code: seq<Cell>, i: nat, b: Stmt, c: Expr, end: nat, cont: nat, tm: seq<bool>, ids: seq<string>)
    requires At(code, i, StmtCode(b, i, end, cont, tm, ids))
    requires
      var tb, ib := StmtTemps(b, tm), StmtIds(b, ids);
      At(code, i + StmtSize(b), ExprCode(c, tb, ib) + [OpCell(JnzCode), NumberCell(i), ExprSymbol(c, tb, ib)])
    ensures Target(code, i)
  {
    hide At, StmtCode, ExprCode, ExprSymbol, StmtTemps, StmtIds;
    var tb, ib := StmtTemps(b, tm), StmtIds(b, ids);
    var body, cond := StmtCode(b, i, end, cont, tm, ids),
        ExprCode(c, tb, ib) + [OpCell(JnzCode), NumberCell(i), ExprSymbol(c, tb, ib)];
    StmtStarts(b, i, end, cont, tm, ids);
    ExprNoJumps(c, tb, ib);
    if body == [] {
      AtIndex(code, i, cond, 0);
    } else {
      AtIndex(code, i, body, 0);
    }
  }

  /** The code of a statement is empty or starts with an operator. */
  lemma {:induction false} StmtStarts(s: Stmt, i: nat, brk: nat, cont: nat, tm: seq<bool>, ids: seq<string>)
    ensures var c := StmtCode(s, i, brk, cont, tm, ids); c == [] || c[0].OpCell?
    decreases s
  {
    hide StmtCode, ExprCode, ExprSymbol, StmtTemps, StmtIds, StmtSize;
    match s
    case Seq(a, b) =>
      CodeIs(s, i, brk, cont, tm, ids);
      StmtStarts(a, i, brk, cont, tm, ids);
      StmtStarts(b, i + StmtSize(a), brk, cont, StmtTemps(a, tm), StmtIds(a, ids));
    case DoWhile(b, c) =>
      DoWhileUnfolds(b, c, i, brk, cont, tm, ids);
      StmtStarts(b, i, i + StmtSize(b) + ExprSize(c) + 3, cont, tm, ids);
      ExprNoJumps(c, StmtTemps(b, tm), StmtIds(b, ids));
    case _ =>
      PlainStarts(s, i, brk, cont, tm, ids);
  }

  lemma PlainStarts(s: Stmt, i: nat, brk: nat, cont: nat, tm: seq<bool>, ids: seq<string>)
    requires !s.Seq? && !s.DoWhile?
    ensures var c := StmtCode(s, i, brk, cont, tm, ids); c == [] || c[0].OpCell?
  {
    hide ExprCode, ArgsCode, ExprSymbol, ExprTemps, ExprSize, StmtTemps, StmtIds, StmtSize, SimpleIds, ForBodyAt,
      ForStepAt, BranchesCode, BranchesSize;
    match s
    case Do(a) =>
      if a.Assign? {
        ExprNoJumps(a.value, tm, ids);
      }
    case If(c, _, _) =>
      ExprNoJumps(c, tm, ids);
    case While(c, _) =>
      ExprNoJumps(c, tm, ids);
    case For(c, _, _) =>
      ExprNoJumps(c, tm, ids);
    case Call(_, e) =>
      ExprNoJumps(e, tm, ids);
    case Printf(_, args) =>
      ArgsNoJumps(args, tm, ids);
    case Skip => case Break => case Continue =>
  }

  lemma {:induction false} ForClosed(code: seq<Cell>, i: nat, c: Expr, step: Simple, b: Stmt, brk: nat, cont: nat,
      inLoop: bool, inFor: bool, tm: seq<bool>, ids: seq<string>)
    requires
      var s := For(c, step, b);
      At(code, i, StmtCode(s, i, brk, cont, tm, ids)) && StmtOk(s, inLoop, inFor, tm, ids) &&
        Target(code, i + StmtSize(s))
    ensures Closed(code, i, StmtSize(For(c, step, b))) && Target(code, i)
    decreases For(c, step, b), 0
  {
    hide At, Target, Closed, ExprCode, ExprSymbol, ExprTemps, ExprOk, StmtCode, StmtSize, StmtTemps, StmtIds, ExprSize,
      SimpleCode, SimpleSize, SimpleIds, SimpleOk, ForCells;
    ForUnfolds(c, step, b, i, brk, cont, tm, ids);
    var stepAt, bodyAt := ForStepAt(c, i), ForBodyAt(c, step, i);
    var end := bodyAt + StmtSize(b) + 2;
    var tc, ic := ExprTemps(c, tm), SimpleIds(step, ids);
    var body := StmtCode(b, bodyAt, end, stepAt, tc, ic);
    Simulation.ForSplits(code, i, c, step, body, tm, ids);
    ForStarts(code, i, c, step, b, end, tm, ids);
    JmpClosed(code, end - 2, stepAt);
    StmtClosed(code, bodyAt, b, end, stepAt, true, true, tc, ic);
    CondClosed(code, i, c, JzCode, end, tm, ids);
    JmpClosed(code, bodyAt - 2, i);
    SimpleClosed(code, stepAt, step, tc, ids);
    JmpClosed(code, stepAt - 2, bodyAt);
    ClosedTwo(code, i, ExprSize(c) + 3, 2);
    ClosedTwo(code, i, ExprSize(c) + 5, SimpleSize(step));
    ClosedTwo(code, i, ExprSize(c) + 5 + SimpleSize(step), 2);
    ClosedTwo(code, i, ExprSize(c) + 5 + SimpleSize(step) + 2, StmtSize(b));
    ClosedTwo(code, i, ExprSize(c) + 5 + SimpleSize(step) + 2 + StmtSize(b), 2);
  }

  /** The step and the body of a for loop start with operators. */
  lemma ForStarts(code: seq<Cell>, i: nat, c: Expr, step: Simple, b: Stmt, end: nat, tm: seq<bool>, ids: seq<string>)
    requires At(code, ForStepAt(c, i), SimpleCode(step, ExprTemps(c, tm), ids))
    requires At(code, ForBodyAt(c, step, i),
      StmtCode(b, ForBodyAt(c, step, i), end, ForStepAt(c, i), ExprTemps(c, tm), SimpleIds(step, ids)))
    requires end == ForBodyAt(c, step, i) + StmtSize(b) + 2 &&
      At(code, end - 2, [OpCell(JmpCode), NumberCell(ForStepAt(c, i))])
    ensures Target(code, ForStepAt(c, i)) && Target(code, ForBodyAt(c, step, i))
  {
    hide At, StmtCode, SimpleCode, ExprTemps, SimpleIds, StmtSize;
    var stepAt, bodyAt, tc, ic := ForStepAt(c, i), ForBodyAt(c, step, i), ExprTemps(c, tm), SimpleIds(step, ids);
    StmtStarts(b, bodyAt, end, stepAt, tc, ic);
    SimpleStarts(step, tc, ids);
    AtIndex(code, stepAt, SimpleCode(step, tc, ids), 0);
    var body := StmtCode(b, bodyAt, end, stepAt, tc, ic);
    AtIndex(code, end - 2, [OpCell(JmpCode), NumberCell(stepAt)], 0);
    if body != [] {
      AtIndex(code, bodyAt, body, 0);
    }
  }

  lemma SimpleStarts(a: Simple, tm: seq<bool>, ids: seq<string>)
    ensures SimpleCode(a, tm, ids) != [] && SimpleCode(a, tm, ids)[0].OpCell?
  {
    if a.Assign? {
      ExprNoJumps(a.value, tm, ids);
    }
  }

  // ---------------------------------------------------------------- whole scripts

  /**
   Backpatching is complete: no jump of a compiled script is left open, and each goes to the start
   of an instruction or the end.
   */
  lemma AllJumpsClosed(s: Stmt, tm: seq<bool>, ids: seq<string>)
    requires Compile(s, tm, ids).status.Ok? && |Compile(s, tm, ids).code| < CODE_LIMIT
    ensures
      var code := Compile(s, tm, ids).code;
      forall k :: 0 <= k < |code| && JumpOp(code[k]) ==>
        k + 1 < |code| && code[k + 1].NumberCell? && code[k + 1].value != PLACEHOLDER && Target(code, code[k + 1].value)
  {
    hide Compile, StmtOk, StmtCode, StmtTemps, StmtIds, StmtSize, Compilation.Safe;
    var code := Compile(s, tm, ids).code;
    Misuse.CompileExact(s, tm, ids);
    assert code[0..|code|] == code;
    StmtClosed(code, 0, s, PLACEHOLDER, 0, false, false, tm, ids);
  }
}
