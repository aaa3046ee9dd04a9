/**
 Statements on the machine: every way a statement can end in the source is
 reached by the machine, at the address that belongs to it, and a statement
 that has not ended after `clock` loop iterations keeps the machine running
 for at least as many steps.
 */
module Simulation {
  import opened Words
  import opened Registers
  import opened Script
  import opened Codegen
  import opened Layout
  import opened Machine
  import opened Semantics
  import opened Refinement
  import opened Preservation

  // ---------------------------------------------------------------- single instructions

  lemma IndexOfAddress(a: nat)
    requires a < CODE_LIMIT
    ensures ToIndex(AsWord(a)) == a
  {
  }

  lemma MovExecutes(code: seq<Cell>, vm: Vm, src: Cell, des: Cell, v: u64)
    requires vm.fault == NoFault && At(code, vm.idx, [OpCell(MovCode), src, des]) && GetValue(vm, src) == Some(v)
    ensures RunFor(code, vm, 1) == SetValue(vm.(idx := vm.idx + 3), des, v)
  {
    hide RunFor, GetValue, SetValue;
    var cells := [OpCell(MovCode), src, des];
    AtIndex(code, vm.idx, cells, 0);
    AtIndex(code, vm.idx, cells, 1);
    AtIndex(code, vm.idx, cells, 2);
    RunForOne(code, vm);
  }

  lemma BumpExecutes(code: seq<Cell>, vm: Vm, up: bool, c: Cell, v: u64)
    requires vm.fault == NoFault && GetValue(vm, c) == Some(v)
    requires At(code, vm.idx, [OpCell(if up then IncCode else DecCode), c])
    ensures RunFor(code, vm, 1) == SetValue(vm.(idx := vm.idx + 2), c, (v + if up then 1 else -1) % TWO64)
  {
    hide RunFor, GetValue, SetValue;
    var cells := [OpCell(if up then IncCode else DecCode), c];
    AtIndex(code, vm.idx, cells, 0);
    AtIndex(code, vm.idx, cells, 1);
    RunForOne(code, vm);
  }

  lemma BranchExecutes(code: seq<Cell>, vm: Vm, onZero: bool, target: nat, c: Cell, v: u64)
    requires vm.fault == NoFault && GetValue(vm, c) == Some(v) && target < CODE_LIMIT
    requires At(code, vm.idx, [OpCell(if onZero then JzCode else JnzCode), NumberCell(target), c])
    ensures RunFor(code, vm, 1) == vm.(idx := if (v == 0) == onZero then target else vm.idx + 3)
  {
    hide RunFor, AsWord, ToIndex;
    var cells := [OpCell(if onZero then JzCode else JnzCode), NumberCell(target), c];
    AtIndex(code, vm.idx, cells, 0);
    AtIndex(code, vm.idx, cells, 1);
    AtIndex(code, vm.idx, cells, 2);
    IndexOfAddress(target);
    RunForOne(code, vm);
  }

  lemma JmpExecutes(code: seq<Cell>, vm: Vm, target: nat)
    requires vm.fault == NoFault && target < CODE_LIMIT
    requires At(code, vm.idx, [OpCell(JmpCode), NumberCell(target)])
    ensures RunFor(code, vm, 1) == vm.(idx := target)
  {
    hide RunFor, AsWord, ToIndex;
    var cells := [OpCell(JmpCode), NumberCell(target)];
    AtIndex(code, vm.idx, cells, 0);
    AtIndex(code, vm.idx, cells, 1);
    IndexOfAddress(target);
    RunForOne(code, vm);
  }

  lemma ReportExecutes(code: seq<Cell>, vm: Vm, r: Report, c: Cell, v: u64)
    requires vm.fault == NoFault && At(code, vm.idx, [OpCell(ReportCode(r)), c]) && GetValue(vm, c) == Some(v)
    ensures RunFor(code, vm, 1) == vm.(idx := vm.idx + 2, out := vm.out + [Reported(r, v)])
  {
    hide RunFor, GetValue;
    var cells := [OpCell(ReportCode(r)), c];
    AtIndex(code, vm.idx, cells, 0);
    AtIndex(code, vm.idx, cells, 1);
    RunForOne(code, vm);
  }

  /** Where the machine finds the parts of a printf the generator wrote. */
  lemma PrintfDecodes(code: seq<Cell>, i: int, f: string, args: seq<Cell>)
    requires At(code, i, [OpCell(PrintfCode)] + TextCells(f) + [CountCell(|args|)] + args)
    ensures
      var j := i + 1 + TextSize(f);
      && 0 <= i && j + 1 + |args| <= |code|
      && code[i] == OpCell(PrintfCode) && code[i + 1] == TextCell(f) && code[j] == CountCell(|args|)
      && code[j + 1..j + 1 + |args|] == args
  {
    var text := TextCells(f);
    var head := [OpCell(PrintfCode)] + text + [CountCell(|args|)];
    hide TextCells;
    AtSplit(code, i, head, args);
    AtSplit(code, i, [OpCell(PrintfCode)] + text, [CountCell(|args|)]);
    AtSplit(code, i, [OpCell(PrintfCode)], text);
    AtIndex(code, i, [OpCell(PrintfCode)], 0);
    AtIndex(code, i + 1, text, 0);
    AtIndex(code, i + 1 + |text|, [CountCell(|args|)], 0);
  }

  /** The machine steps over exactly the cells the generator wrote for a printf. */
  lemma PrintfExecutes(code: seq<Cell>, vm: Vm, f: string, args: seq<Cell>, vs: seq<u64>)
    requires vm.fault == NoFault && GetValues(vm, args) == Some(vs)
    requires At(code, vm.idx, [OpCell(PrintfCode)] + TextCells(f) + [CountCell(|args|)] + args)
    ensures RunFor(code, vm, 1) ==
            vm.(idx := vm.idx + 1 + TextSize(f) + 1 + |args|, out := vm.out + [Printed(f, vs)])
  {
    hide RunFor, GetValues, TextCells, At;
    PrintfDecodes(code, vm.idx, f, args);
    RunForOne(code, vm);
    assert Execute(code, vm) == ExecutePrintf(code, vm);
  }

  // ---------------------------------------------------------------- conditions and simple statements

  lemma {:induction false} CondRuns(code: seq<Cell>, vm: Vm, st: State, c: Expr, onZero: bool, target: nat,
      tm: seq<bool>, ids: seq<string>, final: seq<string>)
    returns (n: nat)
    requires Preservation.Ready(vm, st, final) && ids <= final && |tm| == MAX_TEMP_COUNT && target < CODE_LIMIT
    requires ExprOk(c, tm, ids)
    requires At(code, vm.idx,
      ExprCode(c, tm, ids) + [OpCell(if onZero then JzCode else JnzCode), NumberCell(target), ExprSymbol(c, tm, ids)])
    ensures
      var vm' := RunFor(code, vm, n);
      && Agree(st, vm', final)
      && match Eval(c, st)
         case None => vm'.fault == DivideByZero
         case Some(v) =>
           n >= 1 && vm'.fault == NoFault && vm'.idx == if (v == 0) == onZero then target else vm.idx + ExprSize(c) + 3
  {
    hide RunFor, ExprCode, ExprTemps, ExprOk, At, ExprToken, Symbol, Agree, Eval, GetValue, ExprSize;
    var tail := [OpCell(if onZero then JzCode else JnzCode), NumberCell(target), ExprSymbol(c, tm, ids)];
    AtSplit(code, vm.idx, ExprCode(c, tm, ids), tail);
    n := ExprRuns(code, vm, st, c, tm, ids, final);
    var vm1 := RunFor(code, vm, n);
    AgreeMoves(st, vm, vm1, final);
    if Eval(c, st).Some? {
      BranchExecutes(code, vm1, onZero, target, ExprSymbol(c, tm, ids), Eval(c, st).value);
      RunForSum(code, vm, n, 1);
      n := n + 1;
      AgreeMoves(st, vm, RunFor(code, vm, n), final);
    }
  }

  lemma {:induction false} SimpleRuns(code: seq<Cell>, vm: Vm, st: State, a: Simple, tm: seq<bool>, ids: seq<string>,
      final: seq<string>)
    returns (n: nat)
    requires Preservation.Ready(vm, st, final) && SimpleIds(a, ids) <= final && |tm| == MAX_TEMP_COUNT
    requires SimpleOk(a, tm, ids) && At(code, vm.idx, SimpleCode(a, tm, ids))
    ensures
      var vm' := RunFor(code, vm, n);
      match ExecSimple(a, st)
      case None => vm'.fault == DivideByZero && Agree(st, vm', final)
      case Some(st') => vm'.fault == NoFault && vm'.idx == vm.idx + SimpleSize(a) && Agree(st', vm', final)
  {
    hide RunFor, ExprCode, ExprTemps, ExprOk, At, ExprToken, Symbol, Agree, Eval, GetValue, SetValue, ExprSize, Known,
      Define, ReadPlace, WritePlace;
    match a
    case Assign(p, e) =>
      var ids' := Define(p, ids);
      AtSplit(code, vm.idx, ExprCode(e, tm, ids), [OpCell(MovCode), ExprSymbol(e, tm, ids), PlaceCell(p, ids')]);
      n := ExprRuns(code, vm, st, e, tm, ids, final);
      var vm1 := RunFor(code, vm, n);
      AgreeMoves(st, vm, vm1, final);
      if Eval(e, st).Some? {
        var v := Eval(e, st).value;
        MovExecutes(code, vm1, ExprSymbol(e, tm, ids), PlaceCell(p, ids'), v);
        RunForSum(code, vm, n, 1);
        n := n + 1;
        var vm2 := vm1.(idx := vm1.idx + 3);
        AgreeMoves(st, vm1, vm2, final);
        WriteAgrees(st, vm2, p, ids', final, v);
      }
    case Increment(p) =>
      ReadAgrees(st, vm, p, ids, final);
      BumpExecutes(code, vm, true, PlaceCell(p, ids), ReadPlace(st, p));
      n := 1;
      var vm2 := vm.(idx := vm.idx + 2);
      AgreeMoves(st, vm, vm2, final);
      WriteAgrees(st, vm2, p, ids, final, (ReadPlace(st, p) + 1) % TWO64);
    case Decrement(p) =>
      ReadAgrees(st, vm, p, ids, final);
      BumpExecutes(code, vm, false, PlaceCell(p, ids), ReadPlace(st, p));
      n := 1;
      var vm2 := vm.(idx := vm.idx + 2);
      AgreeMoves(st, vm, vm2, final);
      WriteAgrees(st, vm2, p, ids, final, (ReadPlace(st, p) - 1) % TWO64);
  }

  // ---------------------------------------------------------------- statements

  /**
   The machine has followed a statement to its end: `end` after a normal end, the
   target of the jump after a break or a continue.  The steps taken cover the clock spent.
   */
  ghost predicate Reached(code: seq<Cell>, vm: Vm, n: nat, r: Outcome, end: int, brk: nat, cont: nat, clock: nat,
      final: seq<string>) {
    match r
    case Normal(st, k) => vm.fault == NoFault && vm.idx == end && Agree(st, vm, final) && n + k >= clock
    case Broke(st, k) => vm.fault == NoFault && vm.idx == brk && Agree(st, vm, final) && n + k >= clock
    case Continued(st, k) => vm.fault == NoFault && vm.idx == cont && Agree(st, vm, final) && n + k >= clock
    case Faulted(st) => vm.fault == DivideByZero && Agree(st, vm, final)
    case Timeout => !Halted(code, vm) && n >= clock
  }

  /** What holds when the machine arrives at the code of a statement. */
  ghost predicate Arrived(code: seq<Cell>, vm: Vm, st: State, brk: nat, cont: nat, inLoop: bool, inFor: bool,
      tm: seq<bool>, final: seq<string>) {
    && Preservation.Ready(vm, st, final)
    && 0 <= vm.idx && |code| < CODE_LIMIT && |tm| == MAX_TEMP_COUNT
    && (inLoop ==> brk < CODE_LIMIT)
    && (inFor ==> cont < CODE_LIMIT)
  }

  ghost predicate Placed(code: seq<Cell>, i: nat, s: Stmt, brk: nat, cont: nat, inLoop: bool, inFor: bool,
      tm: seq<bool>, ids: seq<string>, final: seq<string>) {
    && StmtOk(s, inLoop, inFor, tm, ids)
    && StmtIds(s, ids) <= final
    && At(code, i, StmtCode(s, i, brk, cont, tm, ids))
  }

  lemma {:induction false} StmtRuns(code: seq<Cell>, vm: Vm, st: State, s: Stmt, clock: nat,
                                    brk: nat, cont: nat, inLoop: bool, inFor: bool, tm: seq<bool>, ids: seq<string>,
                                        final: seq<string>)
    returns (n: nat)
    requires Arrived(code, vm, st, brk, cont, inLoop, inFor, tm, final)
    requires Placed(code, vm.idx, s, brk, cont, inLoop, inFor, tm, ids, final)
    ensures Reached(code, RunFor(code, vm, n), n, Exec(s, st, clock), vm.idx + StmtSize(s), brk, cont, clock, final)
    decreases clock, s, 1
  {
    hide Arrived, Placed, Reached;
    match s
    case Skip =>
      n := 0;
      SkipRuns(code, vm, st, clock, brk, cont, inLoop, inFor, tm, ids, final);
    case Seq(a, b) =>
      n := SeqRuns(code, vm, st, a, b, clock, brk, cont, inLoop, inFor, tm, ids, final);
    case Do(a) =>
      n := DoRuns(code, vm, st, a, clock, brk, cont, inLoop, inFor, tm, ids, final);
    case If(c, t, r) =>
      n := IfRuns(code, vm, st, c, t, r, clock, brk, cont, inLoop, inFor, tm, ids, final);
    case While(c, b) =>
      n := WhileRuns(code, vm, st, c, b, clock, brk, cont, inLoop, inFor, tm, ids, final);
    case DoWhile(b, c) =>
      n := DoWhileRuns(code, vm, st, b, c, clock, brk, cont, inLoop, inFor, tm, ids, final);
    case For(c, step, b) =>
      n := ForRuns(code, vm, st, c, step, b, clock, brk, cont, inLoop, inFor, tm, ids, final);
    case Break =>
      n := 1;
      JumpRuns(code, vm, st, s, clock, brk, cont, inLoop, inFor, tm, ids, final);
    case Continue =>
      n := 1;
      JumpRuns(code, vm, st, s, clock, brk, cont, inLoop, inFor, tm, ids, final);
    case Call(r, e) =>
      n := CallRuns(code, vm, st, r, e, clock, brk, cont, inLoop, inFor, tm, ids, final);
    case Printf(f, args) =>
      n := PrintfRuns(code, vm, st, f, args, clock, brk, cont, inLoop, inFor, tm, ids, final);
  }

  lemma SkipRuns(code: seq<Cell>, vm: Vm, st: State, clock: nat,
                 brk: nat, cont: nat, inLoop: bool, inFor: bool, tm: seq<bool>, ids: seq<string>, final: seq<string>)
    requires Arrived(code, vm, st, brk, cont, inLoop, inFor, tm, final)
    ensures Reached(code, RunFor(code, vm, 0), 0, Exec(Skip, st, clock), vm.idx + StmtSize(Skip), brk, cont, clock,
      final)
  {
    hide Agree, Execute;
  }

  lemma DoRuns(code: seq<Cell>, vm: Vm, st: State, a: Simple, clock: nat,
               brk: nat, cont: nat, inLoop: bool, inFor: bool, tm: seq<bool>, ids: seq<string>, final: seq<string>)
    returns (n: nat)
    requires Arrived(code, vm, st, brk, cont, inLoop, inFor, tm, final)
    requires Placed(code, vm.idx, Do(a), brk, cont, inLoop, inFor, tm, ids, final)
    ensures Reached(code, RunFor(code, vm, n), n, Exec(Do(a), st, clock), vm.idx + StmtSize(Do(a)), brk, cont, clock,
      final)
  {
    hide RunFor, At, SimpleCode, SimpleOk, SimpleIds, SimpleSize, Agree, ExecSimple;
    n := SimpleRuns(code, vm, st, a, tm, ids, final);
  }

  lemma JumpRuns(code: seq<Cell>, vm: Vm, st: State, s: Stmt, clock: nat,
                 brk: nat, cont: nat, inLoop: bool, inFor: bool, tm: seq<bool>, ids: seq<string>, final: seq<string>)
    requires Arrived(code, vm, st, brk, cont, inLoop, inFor, tm, final) && (s == Break || s == Continue)
    requires Placed(code, vm.idx, s, brk, cont, inLoop, inFor, tm, ids, final)
    ensures Reached(code, RunFor(code, vm, 1), 1, Exec(s, st, clock), vm.idx + StmtSize(s), brk, cont, clock, final)
  {
    hide RunFor, At, Agree;
    JmpExecutes(code, vm, if s == Break then brk else cont);
    AgreeMoves(st, vm, RunFor(code, vm, 1), final);
  }

  lemma CallRuns(code: seq<Cell>, vm: Vm, st: State, r: Report, e: Expr, clock: nat,
                 brk: nat, cont: nat, inLoop: bool, inFor: bool, tm: seq<bool>, ids: seq<string>, final: seq<string>)
    returns (n: nat)
    requires Arrived(code, vm, st, brk, cont, inLoop, inFor, tm, final)
    requires Placed(code, vm.idx, Call(r, e), brk, cont, inLoop, inFor, tm, ids, final)
    ensures Reached(code, RunFor(code, vm, n), n, Exec(Call(r, e), st, clock), vm.idx + StmtSize(Call(r, e)), brk,
      cont, clock, final)
  {
    hide RunFor, At, ExprCode, ExprOk, ExprSize, ExprToken, Symbol, Agree, Eval, GetValue;
    var call := [OpCell(ReportCode(r)), ExprSymbol(e, tm, ids)];
    AtSplit(code, vm.idx, ExprCode(e, tm, ids), call);
    n := ExprRuns(code, vm, st, e, tm, ids, final);
    var vm1 := RunFor(code, vm, n);
    AgreeMoves(st, vm, vm1, final);
    if Eval(e, st).Some? {
      ReportExecutes(code, vm1, r, ExprSymbol(e, tm, ids), Eval(e, st).value);
      RunForSum(code, vm, n, 1);
      n := n + 1;
      OutAgrees(st, vm1, Reported(r, Eval(e, st).value), vm1.idx + 2, final);
    }
  }

  lemma OutAgrees(st: State, vm: Vm, ev: Event, idx: int, final: seq<string>)
    requires Agree(st, vm, final)
    ensures Agree(st.(out := st.out + [ev]), vm.(idx := idx, out := vm.out + [ev]), final)
  {
    var st', vm' := st.(out := st.out + [ev]), vm.(idx := idx, out := vm.out + [ev]);
    forall p: Place | p.Variable? && p.name in final
      ensures Slot(vm', p, final) == Some(ReadPlace(st', p))
    {
      assert Slot(vm, p, final) == Some(ReadPlace(st, p));
    }
  }

  lemma PrintfRuns(code: seq<Cell>, vm: Vm, st: State, f: string, args: seq<Expr>, clock: nat,
                   brk: nat, cont: nat, inLoop: bool, inFor: bool, tm: seq<bool>, ids: seq<string>, final: seq<string>)
    returns (n: nat)
    requires Arrived(code, vm, st, brk, cont, inLoop, inFor, tm, final)
    requires Placed(code, vm.idx, Printf(f, args), brk, cont, inLoop, inFor, tm, ids, final)
    ensures Reached(code, RunFor(code, vm, n), n, Exec(Printf(f, args), st, clock), vm.idx + StmtSize(Printf(f, args)),
      brk, cont, clock, final)
  {
    hide RunFor, At, ArgsCode, ArgsOk, ArgsSize, ArgsTokens, SymbolsOf, TextCells, TextSize, Specifiers, Agree,
      EvalAll, GetValues;
    var syms := SymbolsOf(ArgsTokens(args, tm, ids), ids);
    var call := [OpCell(PrintfCode)] + TextCells(f) + [CountCell(|args|)] + syms;
    AtSplit(code, vm.idx, ArgsCode(args, tm, ids), call);
    n := ArgsRuns(code, vm, st, args, tm, ids, final);
    var vm1 := RunFor(code, vm, n);
    AgreeMoves(st, vm, vm1, final);
    if EvalAll(args, st).Some? {
      var vs := EvalAll(args, st).value;
      PrintfExecutes(code, vm1, f, syms, vs);
      RunForSum(code, vm, n, 1);
      n := n + 1;
      OutAgrees(st, vm1, Printed(f, vs), vm1.idx + 1 + TextSize(f) + 1 + |args|, final);
    }
  }

  lemma SeqPlaced(code: seq<Cell>, i: nat, a: Stmt, b: Stmt,
                  brk: nat, cont: nat, inLoop: bool, inFor: bool, tm: seq<bool>, ids: seq<string>, final: seq<string>)
    requires Placed(code, i, Seq(a, b), brk, cont, inLoop, inFor, tm, ids, final)
    ensures Placed(code, i, a, brk, cont, inLoop, inFor, tm, ids, final)
    ensures Placed(code, i + StmtSize(a), b, brk, cont, inLoop, inFor, StmtTemps(a, tm), StmtIds(a, ids), final)
    ensures StmtSize(Seq(a, b)) == StmtSize(a) + StmtSize(b)
  {
    hide At, StmtCode, StmtSize, StmtIds, StmtTemps;
    SeqUnfolds(a, b, i, brk, cont, tm, ids);
    AtSplit(code, i, StmtCode(a, i, brk, cont, tm, ids),
        StmtCode(b, i + StmtSize(a), brk, cont, StmtTemps(a, tm), StmtIds(a, ids)));
  }

  lemma {:induction false} SeqRuns(code: seq<Cell>, vm: Vm, st: State, a: Stmt, b: Stmt, clock: nat,
                                   brk: nat, cont: nat, inLoop: bool, inFor: bool, tm: seq<bool>, ids: seq<string>,
                                       final: seq<string>)
    returns (n: nat)
    requires Arrived(code, vm, st, brk, cont, inLoop, inFor, tm, final)
    requires Placed(code, vm.idx, Seq(a, b), brk, cont, inLoop, inFor, tm, ids, final)
    ensures Reached(code, RunFor(code, vm, n), n, Exec(Seq(a, b), st, clock), vm.idx + StmtSize(Seq(a, b)), brk, cont,
      clock, final)
    decreases clock, Seq(a, b), 0
  {
    hide RunFor, Placed, StmtSize, StmtIds, StmtTemps, Agree, Exec, Halted;
    ExecSeq(a, b, st, clock);
    SeqPlaced(code, vm.idx, a, b, brk, cont, inLoop, inFor, tm, ids, final);
    var ta, ia := StmtTemps(a, tm), StmtIds(a, ids);
    n := StmtRuns(code, vm, st, a, clock, brk, cont, inLoop, inFor, tm, ids, final);
    var r := Exec(a, st, clock);
    if r.Normal? {
      var vm1 := RunFor(code, vm, n);
      var m := StmtRuns(code, vm1, r.st, b, r.clock, brk, cont, inLoop, inFor, ta, ia, final);
      RunForSum(code, vm, n, m);
      n := n + m;
    }
  }

  // ---------------------------------------------------------------- if

  lemma {:induction false} IfRuns(code: seq<Cell>, vm: Vm, st: State, c: Expr, t: Stmt, r: Branches, clock: nat,
                                  brk: nat, cont: nat, inLoop: bool, inFor: bool, tm: seq<bool>, ids: seq<string>,
                                      final: seq<string>)
    returns (n: nat)
    requires Arrived(code, vm, st, brk, cont, inLoop, inFor, tm, final)
    requires Placed(code, vm.idx, If(c, t, r), brk, cont, inLoop, inFor, tm, ids, final)
    ensures Reached(code, RunFor(code, vm, n), n, Exec(If(c, t, r), st, clock), vm.idx + StmtSize(If(c, t, r)), brk,
      cont, clock, final)
    decreases clock, If(c, t, r), 0
  {
    hide RunFor, At, ExprCode, ExprOk, ExprSize, ExprSymbol, StmtCode, StmtSize, StmtIds, StmtTemps, BranchesCode,
      BranchesSize, BranchesIds,
      Agree, Exec, ExecBranches, Eval, Halted;
    var base := vm.idx;
    IfUnfolds(c, t, r, base, brk, cont, tm, ids);
    ExecIf(c, t, r, st, clock);
    var start := base + ExprSize(c) + 3;
    var next := start + StmtSize(t);
    var end := next + BranchesSize(r);
    var tt, it := StmtTemps(t, tm), StmtIds(t, ids);
    var cc, ct, cr := CondCode(c, next + 2, tm, ids), StmtCode(t, start, brk, cont, tm, ids),
        BranchesCode(r, next, end, brk, cont, tt, it);
    AtSplit(code, base, cc, ct + cr);
    AtSplit(code, start, ct, cr);
    BranchesNonEmpty(r);
    AtBound(code, next, cr);
    n := CondRuns(code, vm, st, c, true, next + 2, tm, ids, final);
    var vm1 := RunFor(code, vm, n);
    if Eval(c, st).Some? {
      var m: nat;
      if Eval(c, st).value != 0 {
        m := BodyRuns(code, vm1, st, t, clock, brk, cont, inLoop, inFor, tm, ids, final, r, end);
      } else {
        m := BranchesRun(code, vm1, st, r, clock, next, end, brk, cont, inLoop, inFor, tt, it, final);
      }
      RunForSum(code, vm, n, m);
      ReachedLater(code, RunFor(code, vm1, m), m, n + m,
          if Eval(c, st).value != 0 then Exec(t, st, clock) else ExecBranches(r, st, clock), end, brk, cont, clock,
          clock, final);
      n := n + m;
    }
  }

  lemma ReachedLater(code: seq<Cell>, vm: Vm, n: nat, m: nat, r: Outcome, end: int, brk: nat, cont: nat, clock: nat,
      clock': nat, final: seq<string>)
    requires Reached(code, vm, n, r, end, brk, cont, clock, final) && m - n >= clock' - clock
    ensures Reached(code, vm, m, r, end, brk, cont, clock', final)
  {
    hide Agree;
  }

  lemma BranchesNonEmpty(r: Branches)
    ensures BranchesSize(r) >= 2
  {
  }

  lemma AtBound(code: seq<Cell>, i: int, cells: seq<Cell>)
    requires At(code, i, cells)
    ensures 0 <= i && i + |cells| <= |code|
  {
  }

  /** The body of a branch, followed by the jump that starts the later branches. */
  lemma {:induction false} BodyRuns(code: seq<Cell>, vm: Vm, st: State, b: Stmt, clock: nat,
                                    brk: nat, cont: nat, inLoop: bool, inFor: bool, tm: seq<bool>, ids: seq<string>,
                                        final: seq<string>,
                                    r: Branches, end: nat)
    returns (n: nat)
    requires Arrived(code, vm, st, brk, cont, inLoop, inFor, tm, final) && end < CODE_LIMIT
    requires Placed(code, vm.idx, b, brk, cont, inLoop, inFor, tm, ids, final)
    requires At(code, vm.idx + StmtSize(b),
      BranchesCode(r, vm.idx + StmtSize(b), end, brk, cont, StmtTemps(b, tm), StmtIds(b, ids)))
    ensures Reached(code, RunFor(code, vm, n), n, Exec(b, st, clock), end, brk, cont, clock, final)
    decreases clock, b, 2
  {
    hide RunFor, At, StmtCode, StmtSize, StmtIds, StmtTemps, StmtOk, BranchesCode, Agree, Exec, Halted;
    n := StmtRuns(code, vm, st, b, clock, brk, cont, inLoop, inFor, tm, ids, final);
    var o := Exec(b, st, clock);
    if o.Normal? {
      var vm1 := RunFor(code, vm, n);
      BranchesStart(code, vm1.idx, r, end, brk, cont, StmtTemps(b, tm), StmtIds(b, ids));
      JmpExecutes(code, vm1, end);
      RunForSum(code, vm, n, 1);
      n := n + 1;
      AgreeMoves(o.st, vm1, RunFor(code, vm, n), final);
    }
  }

  /** Later branches start with the jump to the end. */
  lemma BranchesStart(code: seq<Cell>, i: nat, r: Branches, end: nat, brk: nat, cont: nat, tm: seq<bool>,
      ids: seq<string>)
    requires At(code, i, BranchesCode(r, i, end, brk, cont, tm, ids))
    ensures At(code, i, [OpCell(JmpCode), NumberCell(end)])
  {
    hide At, StmtCode, CondCode, StmtSize, ExprSize, StmtTemps, StmtIds;
    var jmp, cells := [OpCell(JmpCode), NumberCell(end)], BranchesCode(r, i, end, brk, cont, tm, ids);
    assert cells == jmp + cells[2..];
    AtSplit(code, i, jmp, cells[2..]);
  }

  /** Later branches, entered just past the jump that closes the branch before. */
  lemma {:induction false} BranchesRun(code: seq<Cell>, vm: Vm, st: State, r: Branches, clock: nat, base: nat, end: nat,
                                       brk: nat, cont: nat, inLoop: bool, inFor: bool, tm: seq<bool>, ids: seq<string>,
                                           final: seq<string>)
    returns (n: nat)
    requires Arrived(code, vm, st, brk, cont, inLoop, inFor, tm, final) && vm.idx == base + 2 &&
      end == base + BranchesSize(r) < CODE_LIMIT
    requires BranchesOk(r, inLoop, inFor, tm, ids) && BranchesIds(r, ids) <= final
    requires At(code, base, BranchesCode(r, base, end, brk, cont, tm, ids))
    ensures Reached(code, RunFor(code, vm, n), n, ExecBranches(r, st, clock), end, brk, cont, clock, final)
    decreases clock, r, 0
  {
    hide RunFor, At, ExprCode, ExprOk, ExprSize, ExprSymbol, StmtCode, StmtSize, StmtIds, StmtTemps, BranchesCode,
      BranchesSize, BranchesIds,
      StmtOk, BranchesOk, Agree, Exec, Eval, Halted;
    var jmp := [OpCell(JmpCode), NumberCell(end)];
    match r
    case Else(b) =>
      ElseUnfolds(b, base, end, brk, cont, tm, ids);
      OkElse(b, inLoop, inFor, tm, ids);
      hide ExecBranches;
      ExecElse(b, st, clock);
      AtSplit(code, base, jmp, StmtCode(b, base + 2, brk, cont, tm, ids));
      n := StmtRuns(code, vm, st, b, clock, brk, cont, inLoop, inFor, tm, ids, final);
    case ElsIf(c, b, rest) =>
      ElsIfUnfolds(c, b, rest, base, end, brk, cont, tm, ids);
      OkElsIf(c, b, rest, inLoop, inFor, tm, ids);
      hide ExecBranches;
      ExecElsIf(c, b, rest, st, clock);
      var start := base + 2 + ExprSize(c) + 3;
      var next := start + StmtSize(b);
      var tb, ib := StmtTemps(b, tm), StmtIds(b, ids);
      var cc, cb, cr := CondCode(c, next + 2, tm, ids), StmtCode(b, start, brk, cont, tm, ids),
          BranchesCode(rest, next, end, brk, cont, tb, ib);
      AtSplit(code, base, jmp + cc, cb + cr);
      AtSplit(code, base, jmp, cc);
      AtSplit(code, start, cb, cr);
      BranchesNonEmpty(rest);
      AtBound(code, next, cr);
      n := CondRuns(code, vm, st, c, true, next + 2, tm, ids, final);
      var vm1 := RunFor(code, vm, n);
      if Eval(c, st).Some? {
        var m: nat;
        if Eval(c, st).value != 0 {
          m := BodyRuns(code, vm1, st, b, clock, brk, cont, inLoop, inFor, tm, ids, final, rest, end);
        } else {
          m := BranchesRun(code, vm1, st, rest, clock, next, end, brk, cont, inLoop, inFor, tb, ib, final);
        }
        RunForSum(code, vm, n, m);
        ReachedLater(code, RunFor(code, vm1, m), m, n + m,
            if Eval(c, st).value != 0 then Exec(b, st, clock) else ExecBranches(rest, st, clock), end, brk, cont,
            clock, clock, final);
        n := n + m;
      }
  }

  // ---------------------------------------------------------------- loops

  /** A loop that has not spent its clock yet is still running. */
  lemma LoopWaits(code: seq<Cell>, vm: Vm, st: State, s: Stmt,
                  brk: nat, cont: nat, inLoop: bool, inFor: bool, tm: seq<bool>, ids: seq<string>, final: seq<string>)
    requires s.While? || s.For?
    requires Arrived(code, vm, st, brk, cont, inLoop, inFor, tm, final)
    requires Placed(code, vm.idx, s, brk, cont, inLoop, inFor, tm, ids, final)
    ensures Reached(code, RunFor(code, vm, 0), 0, Exec(s, st, 0), vm.idx + StmtSize(s), brk, cont, 0, final)
  {
    hide At, StmtCode, StmtOk, StmtIds, Agree, Exec, Execute;
    ExecNoClock(s, st);
    AtBound(code, vm.idx, StmtCode(s, vm.idx, brk, cont, tm, ids));
    LoopNonEmpty(s);
  }

  lemma LoopNonEmpty(s: Stmt)
    requires s.While? || s.DoWhile? || s.For?
    ensures StmtSize(s) > 0
  {
  }

  lemma {:induction false} WhileRuns(code: seq<Cell>, vm: Vm, st: State, c: Expr, b: Stmt, clock: nat,
                                     brk: nat, cont: nat, inLoop: bool, inFor: bool, tm: seq<bool>, ids: seq<string>,
                                         final: seq<string>)
    returns (n: nat)
    requires Arrived(code, vm, st, brk, cont, inLoop, inFor, tm, final)
    requires Placed(code, vm.idx, While(c, b), brk, cont, inLoop, inFor, tm, ids, final)
    ensures Reached(code, RunFor(code, vm, n), n, Exec(While(c, b), st, clock), vm.idx + StmtSize(While(c, b)), brk,
      cont, clock, final)
    decreases clock, While(c, b), 0
  {
    hide RunFor, At, ExprCode, ExprOk, ExprSize, ExprSymbol, StmtCode, StmtSize, StmtIds, StmtTemps, Agree, Exec, Eval,
      Halted;
    var s := While(c, b);
    if clock == 0 {
      LoopWaits(code, vm, st, s, brk, cont, inLoop, inFor, tm, ids, final);
      n := 0;
    } else {
      var base := vm.idx;
      WhileUnfolds(c, b, base, brk, cont, tm, ids);
      ExecWhile(c, b, st, clock);
      var at := base + ExprSize(c) + 3;
      var end := at + StmtSize(b) + 2;
      var cc, cb, back := CondCode(c, end, tm, ids), StmtCode(b, at, end, cont, tm, ids),
          [OpCell(JmpCode), NumberCell(base)];
      AtBound(code, base, StmtCode(s, base, brk, cont, tm, ids));
      AtSplit(code, base, cc + cb, back);
      AtSplit(code, base, cc, cb);
      n := CondRuns(code, vm, st, c, true, end, tm, ids, final);
      var vm1 := RunFor(code, vm, n);
      if Eval(c, st).Some? && Eval(c, st).value != 0 {
        var m := StmtRuns(code, vm1, st, b, clock - 1, end, cont, true, inFor, tm, ids, final);
        var vm2, r := RunFor(code, vm1, m), Exec(b, st, clock - 1);
        RunForSum(code, vm, n, m);
        if r.Normal? {
          JmpExecutes(code, vm2, base);
          RunForSum(code, vm, n + m, 1);
          var vm3 := RunFor(code, vm2, 1);
          AgreeMoves(r.st, vm2, vm3, final);
          var k := StmtRuns(code, vm3, r.st, s, r.clock, brk, cont, inLoop, inFor, tm, ids, final);
          RunForSum(code, vm, n + m + 1, k);
          ReachedLater(code, RunFor(code, vm3, k), k, n + m + 1 + k, Exec(s, r.st, r.clock), end, brk, cont, r.clock,
              clock, final);
          n := n + m + 1 + k;
        } else {
          n := n + m;
        }
      }
    }
  }

  lemma {:induction false} DoWhileRuns(code: seq<Cell>, vm: Vm, st: State, b: Stmt, c: Expr, clock: nat,
                                       brk: nat, cont: nat, inLoop: bool, inFor: bool, tm: seq<bool>, ids: seq<string>,
                                           final: seq<string>)
    returns (n: nat)
    requires Arrived(code, vm, st, brk, cont, inLoop, inFor, tm, final)
    requires Placed(code, vm.idx, DoWhile(b, c), brk, cont, inLoop, inFor, tm, ids, final)
    ensures Reached(code, RunFor(code, vm, n), n, Exec(DoWhile(b, c), st, clock), vm.idx + StmtSize(DoWhile(b, c)),
      brk, cont, clock, final)
    decreases clock, DoWhile(b, c), 0
  {
    hide RunFor, At, ExprCode, ExprOk, ExprSize, ExprSymbol, StmtCode, StmtSize, StmtIds, StmtTemps, Agree, Exec, Eval;
    var s, base := DoWhile(b, c), vm.idx;
    DoWhileUnfolds(b, c, base, brk, cont, tm, ids);
    ExecDoWhile(b, c, st, clock);
    var end := base + StmtSize(b) + ExprSize(c) + 3;
    var tb, ib := StmtTemps(b, tm), StmtIds(b, ids);
    AtBound(code, base, StmtCode(s, base, brk, cont, tm, ids));
    DoWhileSplit(code, base, StmtCode(b, base, end, cont, tm, ids), c, tb, ib);
    n := StmtRuns(code, vm, st, b, clock, end, cont, true, inFor, tm, ids, final);
    var vm1, r := RunFor(code, vm, n), Exec(b, st, clock);
    if r.Normal? {
      var m := CondRuns(code, vm1, r.st, c, false, base, tb, ib, final);
      RunForSum(code, vm, n, m);
      var vm2 := RunFor(code, vm1, m);
      if Eval(c, r.st).Some? && Eval(c, r.st).value != 0 && r.clock > 0 {
        var k := StmtRuns(code, vm2, r.st, s, r.clock - 1, brk, cont, inLoop, inFor, tm, ids, final);
        RunForSum(code, vm, n + m, k);
        ReachedLater(code, RunFor(code, vm2, k), k, n + m + k, Exec(s, r.st, r.clock - 1), end, brk, cont, r.clock - 1,
            clock, final);
        n := n + m + k;
      } else {
        n := n + m;
      }
    }
  }

  lemma DoWhileSplit(code: seq<Cell>, base: int, body: seq<Cell>, c: Expr, tm: seq<bool>, ids: seq<string>)
    requires base >= 0 && At(code, base, DoWhileCells(body, base, c, tm, ids))
    ensures At(code, base, body)
    ensures At(code, base + |body|, ExprCode(c, tm, ids) + [OpCell(JnzCode), NumberCell(base), ExprSymbol(c, tm, ids)])
  {
    hide At, ExprCode, ExprSymbol;
    var x, y := ExprCode(c, tm, ids), [OpCell(JnzCode), NumberCell(base), ExprSymbol(c, tm, ids)];
    assert body + x + y == body + (x + y);
    AtSplit(code, base, body, x + y);
  }

  /** Where the pieces of a for loop are. */
  lemma ForSplits(code: seq<Cell>, base: int, c: Expr, step: Simple, body: seq<Cell>, tm: seq<bool>, ids: seq<string>)
    requires base >= 0 && At(code, base, ForCells(c, step, base, body, tm, ids))
    ensures
      var stepAt, bodyAt := ForStepAt(c, base), ForBodyAt(c, step, base);
      var end := bodyAt + |body| + 2;
      && At(code, base, CondCode(c, end, tm, ids))
      && At(code, stepAt - 2, [OpCell(JmpCode), NumberCell(bodyAt)])
      && At(code, stepAt, SimpleCode(step, ExprTemps(c, tm), ids))
      && At(code, bodyAt - 2, [OpCell(JmpCode), NumberCell(base)])
      && At(code, bodyAt, body)
      && At(code, end - 2, [OpCell(JmpCode), NumberCell(stepAt)])
      && end <= |code|
  {
    hide At, CondCode, SimpleCode, ExprSize, SimpleSize;
    var stepAt, bodyAt := ForStepAt(c, base), ForBodyAt(c, step, base);
    var end := bodyAt + |body| + 2;
    var cc, over := CondCode(c, end, tm, ids), [OpCell(JmpCode), NumberCell(bodyAt)];
    var sc, back := SimpleCode(step, ExprTemps(c, tm), ids), [OpCell(JmpCode), NumberCell(base)];
    var again := [OpCell(JmpCode), NumberCell(stepAt)];
    AtBound(code, base, ForCells(c, step, base, body, tm, ids));
    AtSplit(code, base, ForHead(c, step, base, end, tm, ids) + body, again);
    AtSplit(code, base, ForHead(c, step, base, end, tm, ids), body);
    AtSplit(code, base, cc + over, sc + back);
    AtSplit(code, base, cc, over);
    AtSplit(code, stepAt, sc, back);
  }

  /** One turn of a for loop after its body: the jump to the step, the step, the jump to the condition. */
  lemma {:induction false} ForTurns(code: seq<Cell>, vm: Vm, st: State, c: Expr, step: Simple, base: nat,
      tm: seq<bool>, ids: seq<string>, final: seq<string>)
    returns (n: nat)
    requires Preservation.Ready(vm, st, final) && |tm| == MAX_TEMP_COUNT && base < CODE_LIMIT &&
      vm.idx == ForStepAt(c, base)
    requires SimpleOk(step, ExprTemps(c, tm), ids) && SimpleIds(step, ids) <= final
    requires At(code, ForStepAt(c, base), SimpleCode(step, ExprTemps(c, tm), ids))
    requires At(code, ForBodyAt(c, step, base) - 2, [OpCell(JmpCode), NumberCell(base)])
    ensures
      var vm' := RunFor(code, vm, n);
      match ExecSimple(step, st)
      case None => vm'.fault == DivideByZero && Agree(st, vm', final)
      case Some(st') => vm'.fault == NoFault && vm'.idx == base && Agree(st', vm', final)
  {
    hide RunFor, At, SimpleCode, SimpleOk, SimpleIds, SimpleSize, ExprSize, ExprTemps, Agree, ExecSimple;
    n := SimpleRuns(code, vm, st, step, ExprTemps(c, tm), ids, final);
    if ExecSimple(step, st).Some? {
      var vm1 := RunFor(code, vm, n);
      JmpExecutes(code, vm1, base);
      RunForSum(code, vm, n, 1);
      n := n + 1;
      AgreeMoves(ExecSimple(step, st).value, vm1, RunFor(code, vm, n), final);
    }
  }

  /** The condition of a for loop leads to its body or behind the loop. */
  lemma {:induction false} ForEnters(code: seq<Cell>, vm: Vm, st: State, c: Expr, step: Simple, end: nat,
      tm: seq<bool>, ids: seq<string>, final: seq<string>)
    returns (n: nat)
    requires Preservation.Ready(vm, st, final) && ids <= final && |tm| == MAX_TEMP_COUNT && end < CODE_LIMIT &&
      ExprOk(c, tm, ids)
    requires 0 <= vm.idx && ForBodyAt(c, step, vm.idx) < CODE_LIMIT
    requires At(code, vm.idx, CondCode(c, end, tm, ids))
    requires At(code, ForStepAt(c, vm.idx) - 2, [OpCell(JmpCode), NumberCell(ForBodyAt(c, step, vm.idx))])
    ensures
      var vm' := RunFor(code, vm, n);
      && Agree(st, vm', final)
      && match Eval(c, st)
         case None => vm'.fault == DivideByZero
         case Some(v) => n >= 1 && vm'.fault == NoFault && vm'.idx == if v == 0 then end else ForBodyAt(c, step, vm.idx)
  {
    hide RunFor, At, ExprCode, ExprSymbol, ExprOk, SimpleSize, ExprSize, Agree, Eval;
    n := CondRuns(code, vm, st, c, true, end, tm, ids, final);
    if Eval(c, st).Some? && Eval(c, st).value != 0 {
      var vm1 := RunFor(code, vm, n);
      JmpExecutes(code, vm1, ForBodyAt(c, step, vm.idx));
      RunForSum(code, vm, n, 1);
      n := n + 1;
      AgreeMoves(st, vm1, RunFor(code, vm, n), final);
    }
  }

  lemma {:induction false} ForRuns(code: seq<Cell>, vm: Vm, st: State, c: Expr, step: Simple, b: Stmt, clock: nat,
                                   brk: nat, cont: nat, inLoop: bool, inFor: bool, tm: seq<bool>, ids: seq<string>,
                                       final: seq<string>)
    returns (n: nat)
    requires Arrived(code, vm, st, brk, cont, inLoop, inFor, tm, final)
    requires Placed(code, vm.idx, For(c, step, b), brk, cont, inLoop, inFor, tm, ids, final)
    ensures Reached(code, RunFor(code, vm, n), n, Exec(For(c, step, b), st, clock), vm.idx + StmtSize(For(c, step, b)),
      brk, cont, clock, final)
    decreases clock, For(c, step, b), 0
  {
    hide RunFor, At, ExprCode, ExprOk, ExprSize, ExprSymbol, ExprTemps, StmtCode, StmtSize, StmtIds, StmtTemps,
      SimpleCode, SimpleOk, SimpleIds, SimpleSize,
      Agree, Exec, Eval, ExecSimple, Halted, CondCode;
    var s := For(c, step, b);
    if clock == 0 {
      LoopWaits(code, vm, st, s, brk, cont, inLoop, inFor, tm, ids, final);
      n := 0;
    } else {
      var base := vm.idx;
      ForUnfolds(c, step, b, base, brk, cont, tm, ids);
      ExecFor(c, step, b, st, clock);
      var stepAt, bodyAt := ForStepAt(c, base), ForBodyAt(c, step, base);
      var end := bodyAt + StmtSize(b) + 2;
      var tc, ic := ExprTemps(c, tm), SimpleIds(step, ids);
      ForSplits(code, base, c, step, StmtCode(b, bodyAt, end, stepAt, tc, ic), tm, ids);
      n := ForEnters(code, vm, st, c, step, end, tm, ids, final);
      var vm1 := RunFor(code, vm, n);
      if Eval(c, st).Some? && Eval(c, st).value != 0 {
        var m := StmtRuns(code, vm1, st, b, clock - 1, end, stepAt, true, true, tc, ic, final);
        var vm2, r := RunFor(code, vm1, m), Exec(b, st, clock - 1);
        RunForSum(code, vm, n, m);
        n := n + m;
        if r.Normal? || r.Continued? {
          n := ForGoesOn(code, vm, n, r, c, step, b, clock, base, brk, cont, inLoop, inFor, tm, ids, final);
        }
      }
    }
  }

  /** After the body of a for loop, or a continue in it. */
  lemma {:induction false} ForGoesOn(code: seq<Cell>, vm: Vm, n0: nat, r: Outcome, c: Expr, step: Simple, b: Stmt,
      clock: nat, base: nat,
                                     brk: nat, cont: nat, inLoop: bool, inFor: bool, tm: seq<bool>, ids: seq<string>,
                                         final: seq<string>)
    returns (n: nat)
    requires (r.Normal? || r.Continued?) && r.clock < clock && n0 + r.clock >= clock && |tm| == MAX_TEMP_COUNT &&
      |code| < CODE_LIMIT
    requires (inLoop ==> brk < CODE_LIMIT) && (inFor ==> cont < CODE_LIMIT)
    requires Placed(code, base, For(c, step, b), brk, cont, inLoop, inFor, tm, ids, final)
    requires
      var vm2 := RunFor(code, vm, n0);
      && vm2.fault == NoFault && Agree(r.st, vm2, final)
      && vm2.idx == if r.Normal? then ForBodyAt(c, step, base) + StmtSize(b) else ForStepAt(c, base)
    ensures Reached(code, RunFor(code, vm, n), n,
                    match ExecSimple(step, r.st) case None => Faulted(r.st) case Some(st2) => Exec(For(c, step, b),
                        st2, r.clock),
                    base + StmtSize(For(c, step, b)), brk, cont, clock, final)
    decreases clock - 1, For(c, step, b), 2
  {
    hide RunFor, At, ExprCode, ExprOk, ExprSize, ExprSymbol, ExprTemps, StmtCode, StmtSize, StmtIds, StmtTemps,
      SimpleCode, SimpleOk, SimpleIds, SimpleSize,
      Agree, Exec, Eval, ExecSimple, Halted, CondCode;
    ForUnfolds(c, step, b, base, brk, cont, tm, ids);
    var s, stepAt, bodyAt := For(c, step, b), ForStepAt(c, base), ForBodyAt(c, step, base);
    var end := bodyAt + StmtSize(b) + 2;
    ForSplits(code, base, c, step, StmtCode(b, bodyAt, end, stepAt, ExprTemps(c, tm), SimpleIds(step, ids)), tm, ids);
    n := n0;
    var vm2 := RunFor(code, vm, n);
    if r.Normal? {
      JmpExecutes(code, vm2, stepAt);
      RunForSum(code, vm, n, 1);
      n := n + 1;
      AgreeMoves(r.st, vm2, RunFor(code, vm, n), final);
      vm2 := RunFor(code, vm, n);
    }
    var k := ForTurns(code, vm2, r.st, c, step, base, tm, ids, final);
    RunForSum(code, vm, n, k);
    n := n + k;
    if ExecSimple(step, r.st).Some? {
      var st2, vm3 := ExecSimple(step, r.st).value, RunFor(code, vm, n);
      var l := StmtRuns(code, vm3, st2, s, r.clock, brk, cont, inLoop, inFor, tm, ids, final);
      RunForSum(code, vm, n, l);
      ReachedLater(code, RunFor(code, vm3, l), l, n + l, Exec(s, st2, r.clock), end, brk, cont, r.clock, clock, final);
      n := n + l;
    }
  }
}
