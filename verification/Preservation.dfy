/**
 Semantic preservation: the laid out code, run by the machine, does what the
 script means, event for event and variable for variable.
 */
module Preservation {
  import opened Words
  import opened Registers
  import opened Script
  import opened Codegen
  import opened Layout
  import opened Machine
  import opened Semantics
  import opened Refinement

  /** The number of cells an `int` index can address. */
  const CODE_LIMIT: int := 0x8000_0000

  // ---------------------------------------------------------------- code in place

  predicate At(code: seq<Cell>, i: int, cells: seq<Cell>) {
    0 <= i && i + |cells| <= |code| && code[i..i + |cells|] == cells
  }

  lemma AtSplit(code: seq<Cell>, i: int, a: seq<Cell>, b: seq<Cell>)
    requires At(code, i, a + b)
    ensures At(code, i, a) && At(code, i + |a|, b)
  {
    var n := |a| + |b|;
    assert code[i..i + n] == a + b;
    assert code[i..i + |a|] == code[i..i + n][..|a|];
    assert code[i + |a|..i + |a| + |b|] == code[i..i + n][|a|..];
  }

  lemma AtIndex(code: seq<Cell>, i: int, cells: seq<Cell>, k: nat)
    requires At(code, i, cells) && k < |cells|
    ensures 0 <= i && i + k < |code| && code[i + k] == cells[k]
  {
    assert code[i..i + |cells|][k] == code[i + k];
  }

  // ---------------------------------------------------------------- states that agree

  /** The cell of a variable in the machine, through the final identifier table. */
  function Slot(vm: Vm, p: Place, ids: seq<string>): Option<u64>
    requires p.Variable?
  {
    GetValue(vm, PlaceCell(p, ids))
  }

  /** The machine's tables hold the script's variables, registers and output. */
  ghost predicate Agree(st: State, vm: Vm, ids: seq<string>) {
    && vm.regs == st.regs
    && vm.out == st.out
    && |ids| <= |vm.globals| && |ids| <= |vm.locals| && |vm.temps| == MAX_TEMP_COUNT
    && forall p: Place :: p.Variable? && p.name in ids ==> Slot(vm, p, ids) == Some(ReadPlace(st, p))
  }

  lemma PlaceCellStable(p: Place, ids: seq<string>, more: seq<string>)
    requires Known(p, ids) && ids <= more
    ensures PlaceCell(p, more) == PlaceCell(p, ids) && Known(p, more)
  {
    if p.Variable? {
      assert more == ids + more[|ids|..];
      IndexOfAppend(ids, more[|ids|..], p.name);
    }
  }

  /** Reading a place from the machine. */
  lemma ReadAgrees(st: State, vm: Vm, p: Place, ids: seq<string>, final: seq<string>)
    requires Agree(st, vm, final) && Known(p, ids) && ids <= final
    ensures GetValue(vm, PlaceCell(p, ids)) == Some(ReadPlace(st, p))
  {
    PlaceCellStable(p, ids, final);
    if p.Variable? {
      assert Slot(vm, p, final) == Some(ReadPlace(st, p));
    }
  }

  /** Writing a place in the machine and in the script. */
  lemma WriteAgrees(st: State, vm: Vm, p: Place, ids: seq<string>, final: seq<string>, v: u64)
    requires Agree(st, vm, final) && Known(p, ids) && ids <= final
    ensures
      var vm' := SetValue(vm, PlaceCell(p, ids), v);
      Agree(WritePlace(st, p, v), vm', final) && vm'.idx == vm.idx && vm'.fault == vm.fault
  {
    PlaceCellStable(p, ids, final);
    var st', vm' := WritePlace(st, p, v), SetValue(vm, PlaceCell(p, final), v);
    forall q: Place | q.Variable? && q.name in final
      ensures Slot(vm', q, final) == Some(ReadPlace(st', q))
    {
      assert Slot(vm, q, final) == Some(ReadPlace(st, q));
      assert final[IndexOf(final, q.name)] == q.name;
      if p.Variable? {
        assert final[IndexOf(final, p.name)] == p.name;
      }
    }
  }

  lemma AgreeMoves(st: State, vm: Vm, vm': Vm, ids: seq<string>)
    requires Agree(st, vm, ids) && vm'.globals == vm.globals && vm'.locals == vm.locals
    requires vm'.regs == vm.regs && vm'.out == vm.out && |vm'.temps| == |vm.temps|
    ensures Agree(st, vm', ids)
  {
    forall p: Place | p.Variable? && p.name in ids
      ensures Slot(vm', p, ids) == Some(ReadPlace(st, p))
    {
      assert Slot(vm, p, ids) == Some(ReadPlace(st, p));
    }
  }

  // ---------------------------------------------------------------- expressions

  /** `vm'` differs from `vm` only in its index and in temporaries that `tm` does not hold. */
  predicate OnlyTemps(vm: Vm, vm': Vm, idx: int, tm: seq<bool>) {
    && vm' == vm.(idx := idx, temps := vm'.temps)
    && |vm'.temps| == |vm.temps|
    && forall t :: 0 <= t < |tm| && t < |vm.temps| && tm[t] ==> vm'.temps[t] == vm.temps[t]
  }

  /** The code of an expression has run: its token reads as its value, or the machine reported the division. */
  predicate Evaluated(vm: Vm, vm': Vm, e: Expr, tm: seq<bool>, ids: seq<string>, v: Option<u64>) {
    match v
    case Some(x) => OnlyTemps(vm, vm', vm.idx + ExprSize(e), tm) && GetValue(vm', ExprSymbol(e, tm, ids)) == Some(x)
    case None =>
      && vm'.fault == DivideByZero
      && vm' == vm.(idx := vm'.idx, temps := vm'.temps, fault := DivideByZero)
      && |vm'.temps| == |vm.temps|
  }

  ghost predicate Ready(vm: Vm, st: State, final: seq<string>) {
    vm.fault == NoFault && Agree(st, vm, final)
  }

  lemma UnaryExecutes(code: seq<Cell>, vm: Vm, op: UnaryOp, c: Cell, d: nat, a: u64)
    requires vm.fault == NoFault && At(code, vm.idx, [OpCell(UnaryCode(op)), c, TempCell(d)])
    requires GetValue(vm, c) == Some(a) && d < |vm.temps|
    ensures RunFor(code, vm, 1) == vm.(idx := vm.idx + 3, temps := vm.temps[d := UnaryValue(op, a)])
  {
    hide UnaryValue, RunFor;
    var cells := [OpCell(UnaryCode(op)), c, TempCell(d)];
    AtIndex(code, vm.idx, cells, 0);
    AtIndex(code, vm.idx, cells, 1);
    AtIndex(code, vm.idx, cells, 2);
    RunForOne(code, vm);
  }

  lemma BinaryExecutes(code: seq<Cell>, vm: Vm, op: BinaryOp, c0: Cell, c1: Cell, d: nat, a: u64, b: u64)
    requires vm.fault == NoFault && At(code, vm.idx, [OpCell(BinaryCode(op)), c0, c1, TempCell(d)])
    requires GetValue(vm, c0) == Some(b) && GetValue(vm, c1) == Some(a) && d < |vm.temps|
    ensures RunFor(code, vm, 1) ==
            match BinaryValue(op, a, b)
            case Some(v) => vm.(idx := vm.idx + 4, temps := vm.temps[d := v])
            case None => vm.(idx := vm.idx + 4, fault := DivideByZero)
  {
    hide BinaryValue, RunFor;
    var cells := [OpCell(BinaryCode(op)), c0, c1, TempCell(d)];
    AtIndex(code, vm.idx, cells, 0);
    AtIndex(code, vm.idx, cells, 1);
    AtIndex(code, vm.idx, cells, 2);
    AtIndex(code, vm.idx, cells, 3);
    RunForOne(code, vm);
  }

  /** An operand keeps its value while other temporaries change. */
  lemma OperandKept(st: State, vm: Vm, vm': Vm, idx: int, e: Expr, tm: seq<bool>, ids: seq<string>, final: seq<string>,
      x: u64)
    requires Agree(st, vm, final) && ExprOk(e, tm, ids) && ids <= final && |tm| == MAX_TEMP_COUNT
    requires OnlyTemps(vm, vm', idx, ExprTemps(e, tm)) && GetValue(vm, ExprSymbol(e, tm, ids)) == Some(x)
    ensures GetValue(vm', ExprSymbol(e, tm, ids)) == Some(x)
  {
    hide IndexOf, ReadRegister;
    if !Leaf(e) {
      assert ExprTemps(e, tm) == tm[Dest(e, tm) := true];
    }
  }

  lemma {:induction false} ExprRuns(code: seq<Cell>, vm: Vm, st: State, e: Expr, tm: seq<bool>, ids: seq<string>,
      final: seq<string>)
    returns (n: nat)
    requires Ready(vm, st, final) && ids <= final && |tm| == MAX_TEMP_COUNT
    requires ExprOk(e, tm, ids) && At(code, vm.idx, ExprCode(e, tm, ids))
    ensures Evaluated(vm, RunFor(code, vm, n), e, tm, ids, Eval(e, st))
    decreases e
  {
    match e
    case Number(v) =>
      n := 0;
    case Read(p) =>
      n := 0;
      ReadAgrees(st, vm, p, ids, final);
    case Unary(op, a) =>
      n := UnaryRuns(code, vm, st, op, a, tm, ids, final);
    case Binary(op, l, r) =>
      n := BinaryRuns(code, vm, st, op, l, r, tm, ids, final);
  }

  lemma {:induction false} UnaryRuns(code: seq<Cell>, vm: Vm, st: State, op: UnaryOp, a: Expr, tm: seq<bool>,
      ids: seq<string>, final: seq<string>)
    returns (n: nat)
    requires Ready(vm, st, final) && ids <= final && |tm| == MAX_TEMP_COUNT
    requires var e := Unary(op, a); ExprOk(e, tm, ids) && At(code, vm.idx, ExprCode(e, tm, ids))
    ensures var e := Unary(op, a); Evaluated(vm, RunFor(code, vm, n), e, tm, ids, Eval(e, st))
    decreases Unary(op, a), 0
  {
    hide RunFor, UnaryValue, ExprCode, ExprTemps, ExprOk, At, ExprToken;
    var e := Unary(op, a);
    UnaryUnfolds(op, a, tm, ids);
    var d := FirstFree(ExprTemps(a, tm));
    var tail := [OpCell(UnaryCode(op)), ExprSymbol(a, tm, ids), TempCell(d)];
    AtSplit(code, vm.idx, ExprCode(a, tm, ids), tail);
    n := ExprRuns(code, vm, st, a, tm, ids, final);
    var vm1 := RunFor(code, vm, n);
    if Eval(a, st).Some? {
      var x := Eval(a, st).value;
      UnaryExecutes(code, vm1, op, ExprSymbol(a, tm, ids), d, x);
      RunForSum(code, vm, n, 1);
      DestWasFree(a, tm, d);
      n := n + 1;
    }
  }

  /** A slot that is free after an expression was free before it. */
  lemma DestWasFree(e: Expr, tm: seq<bool>, d: nat)
    requires d < |tm| && d == FirstFree(ExprTemps(e, tm))
    ensures !ExprTemps(e, tm)[d] && !tm[d]
    ensures forall t :: 0 <= t < |tm| && tm[t] ==> ExprTemps(e, tm)[t]
  {
  }

  lemma {:induction false} BinaryRuns(code: seq<Cell>, vm: Vm, st: State, op: BinaryOp, l: Expr, r: Expr,
      tm: seq<bool>, ids: seq<string>, final: seq<string>)
    returns (n: nat)
    requires Ready(vm, st, final) && ids <= final && |tm| == MAX_TEMP_COUNT
    requires var e := Binary(op, l, r); ExprOk(e, tm, ids) && At(code, vm.idx, ExprCode(e, tm, ids))
    ensures var e := Binary(op, l, r); Evaluated(vm, RunFor(code, vm, n), e, tm, ids, Eval(e, st))
    decreases Binary(op, l, r), 0
  {
    hide RunFor, BinaryValue, ExprCode, ExprTemps, ExprOk, At, ExprToken, Agree;
    BinaryUnfolds(op, l, r, tm, ids);
    var tl := ExprTemps(l, tm);
    var d := FirstFree(ExprTemps(r, tl));
    var cl, cr := ExprCode(l, tm, ids), ExprCode(r, tl, ids);
    var tail := [OpCell(BinaryCode(op)), ExprSymbol(r, tl, ids), ExprSymbol(l, tm, ids), TempCell(d)];
    AtSplit(code, vm.idx, cl + cr, tail);
    AtSplit(code, vm.idx, cl, cr);
    n := ExprRuns(code, vm, st, l, tm, ids, final);
    var vm1 := RunFor(code, vm, n);
    if Eval(l, st).Some? {
      AgreeMoves(st, vm, vm1, final);
      var m := ExprRuns(code, vm1, st, r, tl, ids, final);
      var vm2 := RunFor(code, vm1, m);
      RunForSum(code, vm, n, m);
      TakenKept(l, tm);
      if Eval(r, st).Some? {
        OperandKept(st, vm1, vm2, vm2.idx, l, tm, ids, final, Eval(l, st).value);
        BinaryExecutes(code, vm2, op, ExprSymbol(r, tl, ids), ExprSymbol(l, tm, ids), d, Eval(l, st).value,
            Eval(r, st).value);
        RunForSum(code, vm, n + m, 1);
        DestWasFree(r, tl, d);
        n := n + m + 1;
      } else {
        n := n + m;
      }
    }
  }

  lemma TakenKept(e: Expr, tm: seq<bool>)
    ensures forall t :: 0 <= t < |tm| && tm[t] ==> ExprTemps(e, tm)[t]
  {
  }

  // ---------------------------------------------------------------- argument lists

  /** The arguments have been computed: their tokens read as their values. */
  predicate AllEvaluated(vm: Vm, vm': Vm, args: seq<Expr>, tm: seq<bool>, ids: seq<string>, v: Option<seq<u64>>) {
    match v
    case Some(vs) =>
      OnlyTemps(vm, vm', vm.idx + ArgsSize(args), tm) &&
          GetValues(vm', SymbolsOf(ArgsTokens(args, tm, ids), ids)) == Some(vs)
    case None =>
      && vm'.fault == DivideByZero
      && vm' == vm.(idx := vm'.idx, temps := vm'.temps, fault := DivideByZero)
      && |vm'.temps| == |vm.temps|
  }

  /** One unfolding of a non-empty argument list. */
  lemma ArgsUnfold(e: Expr, rest: seq<Expr>, tm: seq<bool>, ids: seq<string>)
    ensures
      var args, te := [e] + rest, ExprTemps(e, tm);
      && ArgsSize(args) == ExprSize(e) + ArgsSize(rest)
      && ArgsCode(args, tm, ids) == ExprCode(e, tm, ids) + ArgsCode(rest, te, ids)
      && (ArgsOk(args, tm, ids) <==> ExprOk(e, tm, ids) && ArgsOk(rest, te, ids))
      && SymbolsOf(ArgsTokens(args, tm, ids), ids) == [ExprSymbol(e, tm, ids)]
          + SymbolsOf(ArgsTokens(rest, te, ids), ids)
  {
    hide ExprCode, ExprTemps, ExprOk, ExprToken, Symbol, ExprSize;
    var args, te := [e] + rest, ExprTemps(e, tm);
    assert args[0] == e && args[1..] == rest;
    var t, ts := ExprToken(e, tm, ids), ArgsTokens(rest, te, ids);
    assert ArgsTokens(args, tm, ids) == [t] + ts;
    assert ([t] + ts)[1..] == ts;
  }

  lemma ValuesUnfold(vm: Vm, c: Cell, cs: seq<Cell>, v: u64, vs: seq<u64>)
    requires GetValue(vm, c) == Some(v) && GetValues(vm, cs) == Some(vs)
    ensures GetValues(vm, [c] + cs) == Some([v] + vs)
  {
    hide GetValue;
    assert ([c] + cs)[1..] == cs;
  }

  lemma EvalAllUnfold(st: State, e: Expr, rest: seq<Expr>)
    ensures EvalAll([e] + rest, st) ==
            match (Eval(e, st), EvalAll(rest, st))
            case (Some(v), Some(vs)) => Some([v] + vs)
            case _ => None
  {
    hide Eval;
    assert ([e] + rest)[1..] == rest;
  }

  lemma ArgsNone(code: seq<Cell>, vm: Vm, st: State, tm: seq<bool>, ids: seq<string>)
    ensures AllEvaluated(vm, RunFor(code, vm, 0), [], tm, ids, EvalAll([], st))
  {
    hide Execute;
  }

  /** The first argument keeps its value while the others are computed. */
  lemma ArgsJoin(st: State, vm: Vm, vm1: Vm, vm2: Vm, e: Expr, rest: seq<Expr>, tm: seq<bool>, ids: seq<string>,
      final: seq<string>)
    requires Agree(st, vm1, final) && ids <= final && |tm| == MAX_TEMP_COUNT && ExprOk(e, tm, ids)
    requires Eval(e, st).Some? && Evaluated(vm, vm1, e, tm, ids, Eval(e, st))
    requires AllEvaluated(vm1, vm2, rest, ExprTemps(e, tm), ids, EvalAll(rest, st))
    ensures AllEvaluated(vm, vm2, [e] + rest, tm, ids, EvalAll([e] + rest, st))
  {
    hide ExprCode, ExprTemps, ExprOk, ExprToken, Agree, Eval, EvalAll, GetValue, GetValues, Symbol, SymbolsOf,
      ArgsTokens,
      ExprSize, ArgsSize, ArgsCode, ArgsOk;
    ArgsUnfold(e, rest, tm, ids);
    EvalAllUnfold(st, e, rest);
    TakenKept(e, tm);
    if EvalAll(rest, st).Some? {
      OperandKept(st, vm1, vm2, vm2.idx, e, tm, ids, final, Eval(e, st).value);
      ValuesUnfold(vm2, ExprSymbol(e, tm, ids), SymbolsOf(ArgsTokens(rest, ExprTemps(e, tm), ids), ids),
          Eval(e, st).value, EvalAll(rest, st).value);
    }
  }

  lemma {:induction false} ArgsRuns(code: seq<Cell>, vm: Vm, st: State, args: seq<Expr>, tm: seq<bool>,
      ids: seq<string>, final: seq<string>)
    returns (n: nat)
    requires Ready(vm, st, final) && ids <= final && |tm| == MAX_TEMP_COUNT
    requires ArgsOk(args, tm, ids) && At(code, vm.idx, ArgsCode(args, tm, ids))
    ensures AllEvaluated(vm, RunFor(code, vm, n), args, tm, ids, EvalAll(args, st))
    decreases |args|
  {
    hide RunFor, ExprCode, ExprTemps, ExprOk, At, ExprToken, Agree, Eval, EvalAll, GetValue, GetValues, Symbol,
      SymbolsOf, ArgsTokens,
      ExprSize, ArgsSize, ArgsCode, ArgsOk;
    if args == [] {
      n := 0;
      ArgsNone(code, vm, st, tm, ids);
    } else {
      var e, rest := args[0], args[1..];
      assert args == [e] + rest;
      ArgsUnfold(e, rest, tm, ids);
      EvalAllUnfold(st, e, rest);
      AtSplit(code, vm.idx, ExprCode(e, tm, ids), ArgsCode(rest, ExprTemps(e, tm), ids));
      n := ExprRuns(code, vm, st, e, tm, ids, final);
      var vm1 := RunFor(code, vm, n);
      if Eval(e, st).Some? {
        AgreeMoves(st, vm, vm1, final);
        var m := ArgsRuns(code, vm1, st, rest, ExprTemps(e, tm), ids, final);
        RunForSum(code, vm, n, m);
        ArgsJoin(st, vm, vm1, RunFor(code, vm1, m), e, rest, tm, ids, final);
        n := n + m;
      }
    }
  }
}
