/**
 Decoding stays in step with what was emitted: compiled code is a row of whole
 instructions, and on every run the machine's index is at the start of one or at
 the end.
 */
module Alignment {
  import opened Words
  import opened Script
  import opened Codegen
  import opened Layout
  import opened Machine
  import opened Preservation
  import Compilation
  import Correctness
  import Jumps
  import Misuse

  /** One whole instruction as the machine counts its cells. */
  predicate Instruction(p: seq<Cell>) {
    && p != [] && p[0].OpCell?
    && (forall k :: 1 <= k < |p| ==> !p[k].OpCell?)
    && if p[0].op.PrintfCode? then
         && 1 < |p| && p[1].TextCell?
         && (var j := 1 + TextSize(p[1].text); j < |p| && p[j].CountCell? && |p| == j + 1 + p[j].count)
       else |p| == Width(p[0].op)
  }

  function Flat(parts: seq<seq<Cell>>): seq<Cell> {
    if parts == [] then [] else Flat(parts[..|parts| - 1]) + parts[|parts| - 1]
  }

  predicate Instructions(parts: seq<seq<Cell>>) {
    forall p :: p in parts ==> Instruction(p)
  }

  ghost predicate Sliced(cells: seq<Cell>) {
    exists parts :: Instructions(parts) && Flat(parts) == cells
  }

  // ---------------------------------------------------------------- slicing

  lemma FlatSnoc(parts: seq<seq<Cell>>, p: seq<Cell>)
    ensures Flat([]) == [] && Flat(parts + [p]) == Flat(parts) + p
  {
    assert (parts + [p])[..|parts|] == parts;
  }

  lemma {:induction false} FlatAppend(a: seq<seq<Cell>>, b: seq<seq<Cell>>)
    ensures Flat(a + b) == Flat(a) + Flat(b)
    decreases |b|
  {
    hide Flat;
    if b == [] {
      assert a + b == a;
      FlatSnoc([], []);
    } else {
      var front, last := b[..|b| - 1], b[|b| - 1];
      FlatAppend(a, front);
      FlatSnoc(a + front, last);
      FlatSnoc(front, last);
      assert a + b == a + front + [last] && b == front + [last];
    }
  }

  lemma SlicedNone()
    ensures Sliced([])
  {
    assert Instructions([]) && Flat([]) == [];
  }

  lemma SlicedOne(p: seq<Cell>)
    requires Instruction(p)
    ensures Sliced(p)
  {
    hide Instruction, Flat;
    FlatSnoc([], p);
    assert [] + [p] == [p] && [] + p == p;
    assert Instructions([p]) && Flat([p]) == p;
  }

  lemma SlicedTwo(a: seq<Cell>, b: seq<Cell>)
    requires Sliced(a) && Sliced(b)
    ensures Sliced(a + b)
  {
    hide Instruction;
    var pa :| Instructions(pa) && Flat(pa) == a;
    var pb :| Instructions(pb) && Flat(pb) == b;
    FlatAppend(pa, pb);
    assert Instructions(pa + pb);
  }

  lemma {:induction false} ExprSliced(e: Expr, tm: seq<bool>, ids: seq<string>)
    ensures Sliced(ExprCode(e, tm, ids))
    decreases e
  {
    hide Sliced, Symbol, ExprToken, ExprTemps, Dest;
    match e
    case Number(_) => SlicedNone();
    case Read(_) => SlicedNone();
    case Unary(op, a) =>
      Jumps.SymbolNoOp(ExprToken(a, tm, ids), ids);
      ExprSliced(a, tm, ids);
      SlicedOne([OpCell(UnaryCode(op)), ExprSymbol(a, tm, ids), TempCell(Dest(e, tm))]);
      SlicedTwo(ExprCode(a, tm, ids), [OpCell(UnaryCode(op)), ExprSymbol(a, tm, ids), TempCell(Dest(e, tm))]);
    case Binary(op, l, r) =>
      BinarySliced(op, l, r, tm, ids);
  }

  lemma {:induction false} BinarySliced(op: BinaryOp, l: Expr, r: Expr, tm: seq<bool>, ids: seq<string>)
    ensures Sliced(ExprCode(Binary(op, l, r), tm, ids))
    decreases Binary(op, l, r), 0
  {
    hide Sliced, Symbol, ExprToken, ExprTemps, Dest;
    var tl := ExprTemps(l, tm);
    Jumps.SymbolNoOp(ExprToken(l, tm, ids), ids);
    Jumps.SymbolNoOp(ExprToken(r, tl, ids), ids);
    ExprSliced(l, tm, ids);
    ExprSliced(r, tl, ids);
    var p := [OpCell(BinaryCode(op)), ExprSymbol(r, tl, ids), ExprSymbol(l, tm, ids),
        TempCell(Dest(Binary(op, l, r), tm))];
    SlicedOne(p);
    SlicedTwo(ExprCode(l, tm, ids), ExprCode(r, tl, ids));
    SlicedTwo(ExprCode(l, tm, ids) + ExprCode(r, tl, ids), p);
  }

  lemma {:induction false} ArgsSliced(args: seq<Expr>, tm: seq<bool>, ids: seq<string>)
    ensures Sliced(ArgsCode(args, tm, ids))
    decreases |args|
  {
    hide Sliced, ExprCode, ExprTemps;
    if args == [] {
      SlicedNone();
    } else {
      ExprSliced(args[0], tm, ids);
      ArgsSliced(args[1..], ExprTemps(args[0], tm), ids);
      SlicedTwo(ExprCode(args[0], tm, ids), ArgsCode(args[1..], ExprTemps(args[0], tm), ids));
    }
  }

  lemma SimpleSliced(a: Simple, tm: seq<bool>, ids: seq<string>)
    ensures Sliced(SimpleCode(a, tm, ids))
  {
    hide Sliced, ExprCode, Symbol, ExprToken;
    match a
    case Assign(p, e) =>
      var mov := [OpCell(MovCode), ExprSymbol(e, tm, ids), PlaceCell(p, Define(p, ids))];
      Jumps.SymbolNoOp(ExprToken(e, tm, ids), ids);
      ExprSliced(e, tm, ids);
      SlicedOne(mov);
      SlicedTwo(ExprCode(e, tm, ids), mov);
    case Increment(p) => SlicedOne([OpCell(IncCode), PlaceCell(p, ids)]);
    case Decrement(p) => SlicedOne([OpCell(DecCode), PlaceCell(p, ids)]);
  }

  /** A condition with its jump. */
  lemma TestSliced(c: Expr, op: Opcode, target: nat, tm: seq<bool>, ids: seq<string>)
    requires op.JzCode? || op.JnzCode?
    ensures Sliced(ExprCode(c, tm, ids) + [OpCell(op), NumberCell(target), ExprSymbol(c, tm, ids)])
  {
    hide Sliced, ExprCode, Symbol, ExprToken;
    Jumps.SymbolNoOp(ExprToken(c, tm, ids), ids);
    ExprSliced(c, tm, ids);
    SlicedOne([OpCell(op), NumberCell(target), ExprSymbol(c, tm, ids)]);
    SlicedTwo(ExprCode(c, tm, ids), [OpCell(op), NumberCell(target), ExprSymbol(c, tm, ids)]);
  }

  lemma JumpSliced(target: nat)
    ensures Sliced([OpCell(JmpCode), NumberCell(target)])
  {
    SlicedOne([OpCell(JmpCode), NumberCell(target)]);
  }

  lemma CondSliced(c: Expr, target: nat, tm: seq<bool>, ids: seq<string>)
    ensures Sliced(CondCode(c, target, tm, ids))
  {
    hide Sliced, ExprCode;
    TestSliced(c, JzCode, target, tm, ids);
  }

  lemma ForHeadSliced(c: Expr, step: Simple, base: nat, end: nat, tm: seq<bool>, ids: seq<string>)
    ensures Sliced(ForHead(c, step, base, end, tm, ids))
  {
    hide Sliced, CondCode, SimpleCode;
    CondSliced(c, end, tm, ids);
    JumpSliced(ForBodyAt(c, step, base));
    JumpSliced(base);
    var test, over := CondCode(c, end, tm, ids), [OpCell(JmpCode), NumberCell(ForBodyAt(c, step, base))];
    var work, back := SimpleCode(step, ExprTemps(c, tm), ids), [OpCell(JmpCode), NumberCell(base)];
    SimpleSliced(step, ExprTemps(c, tm), ids);
    SlicedTwo(test, over);
    SlicedTwo(work, back);
    SlicedTwo(test + over, work + back);
  }

  lemma PrintfSliced(f: string, args: seq<Expr>, tm: seq<bool>, ids: seq<string>)
    ensures Sliced(PrintfCells(f, args, tm, ids))
  {
    hide Sliced, ArgsCode, Symbol;
    var ts := ArgsTokens(args, tm, ids);
    var p := [OpCell(PrintfCode)] + TextCells(f) + [CountCell(|args|)] + SymbolsOf(ts, ids);
    SymbolsNoOp(ts, ids);
    assert Instruction(p) by {
      assert p[1] == TextCells(f)[0] == TextCell(f);
      forall k | 1 <= k < |p| ensures !p[k].OpCell? {
        if k < 1 + TextSize(f) {
          assert p[k] == TextCells(f)[k - 1];
        } else if k > 1 + TextSize(f) {
          assert p[k] == SymbolsOf(ts, ids)[k - 2 - TextSize(f)];
        }
      }
    }
    ArgsSliced(args, tm, ids);
    SlicedOne(p);
    SlicedTwo(ArgsCode(args, tm, ids), p);
  }

  lemma {:induction false} SymbolsNoOp(ts: seq<Token>, ids: seq<string>)
    ensures forall k :: 0 <= k < |ts| ==> !SymbolsOf(ts, ids)[k].OpCell?
    decreases |ts|
  {
    if ts != [] {
      Jumps.SymbolNoOp(ts[0], ids);
      SymbolsNoOp(ts[1..], ids);
    }
  }

  lemma PlainSliced(s: Stmt, base: nat, brk: nat, cont: nat, tm: seq<bool>, ids: seq<string>)
    requires s.Skip? || s.Do? || s.Break? || s.Continue? || s.Call? || s.Printf?
    ensures Sliced(StmtCode(s, base, brk, cont, tm, ids))
  {
    hide Sliced, ExprCode, SimpleCode, PrintfCells, Symbol, ExprToken;
    match s
    case Skip => SlicedNone();
    case Do(a) => SimpleSliced(a, tm, ids);
    case Break => JumpSliced(brk);
    case Continue => JumpSliced(cont);
    case Call(r, e) =>
      Jumps.SymbolNoOp(ExprToken(e, tm, ids), ids);
      ExprSliced(e, tm, ids);
      SlicedOne([OpCell(ReportCode(r)), ExprSymbol(e, tm, ids)]);
      SlicedTwo(ExprCode(e, tm, ids), [OpCell(ReportCode(r)), ExprSymbol(e, tm, ids)]);
    case Printf(f, args) => PrintfSliced(f, args, tm, ids);
  }

  lemma {:induction false} StmtSliced(s: Stmt, base: nat, brk: nat, cont: nat, tm: seq<bool>, ids: seq<string>)
    ensures Sliced(StmtCode(s, base, brk, cont, tm, ids))
    decreases s
  {
    hide Sliced, StmtCode, BranchesCode, CondCode, ExprCode, ForHead, StmtTemps, StmtIds, StmtSize, ExprTemps,
      SimpleIds, BranchesSize, ExprSize;
    match s
    case Seq(a, b) =>
      SeqUnfolds(a, b, base, brk, cont, tm, ids);
      StmtSliced(a, base, brk, cont, tm, ids);
      StmtSliced(b, base + StmtSize(a), brk, cont, StmtTemps(a, tm), StmtIds(a, ids));
      SlicedTwo(StmtCode(a, base, brk, cont, tm, ids),
          StmtCode(b, base + StmtSize(a), brk, cont, StmtTemps(a, tm), StmtIds(a, ids)));
    case If(c, t, r) =>
      IfUnfolds(c, t, r, base, brk, cont, tm, ids);
      var start := base + ExprSize(c) + 3;
      var next := start + StmtSize(t);
      var body, rest := StmtCode(t, start, brk, cont, tm, ids),
          BranchesCode(r, next, next + BranchesSize(r), brk, cont, StmtTemps(t, tm), StmtIds(t, ids));
      CondSliced(c, next + 2, tm, ids);
      StmtSliced(t, start, brk, cont, tm, ids);
      BranchesSliced(r, next, next + BranchesSize(r), brk, cont, StmtTemps(t, tm), StmtIds(t, ids));
      SlicedTwo(body, rest);
      SlicedTwo(CondCode(c, next + 2, tm, ids), body + rest);
    case While(c, b) =>
      WhileUnfolds(c, b, base, brk, cont, tm, ids);
      var end := base + ExprSize(c) + 3 + StmtSize(b) + 2;
      var body := StmtCode(b, base + ExprSize(c) + 3, end, cont, tm, ids);
      StmtSliced(b, base + ExprSize(c) + 3, end, cont, tm, ids);
      WhileCellsSliced(c, base, body, tm, ids);
    case DoWhile(b, c) =>
      DoWhileUnfolds(b, c, base, brk, cont, tm, ids);
      var end := base + StmtSize(b) + ExprSize(c) + 3;
      StmtSliced(b, base, end, cont, tm, ids);
      DoWhileCellsSliced(StmtCode(b, base, end, cont, tm, ids), base, c, StmtTemps(b, tm), StmtIds(b, ids));
    case For(c, step, b) =>
      ForUnfolds(c, step, b, base, brk, cont, tm, ids);
      var stepAt, bodyAt := ForStepAt(c, base), ForBodyAt(c, step, base);
      var end := bodyAt + StmtSize(b) + 2;
      StmtSliced(b, bodyAt, end, stepAt, ExprTemps(c, tm), SimpleIds(step, ids));
      ForCellsSliced(c, step, base, StmtCode(b, bodyAt, end, stepAt, ExprTemps(c, tm), SimpleIds(step, ids)), tm, ids);
    case _ =>
      PlainSliced(s, base, brk, cont, tm, ids);
  }

  lemma WhileCellsSliced(c: Expr, base: nat, body: seq<Cell>, tm: seq<bool>, ids: seq<string>)
    requires Sliced(body)
    ensures Sliced(WhileCells(c, base, body, tm, ids))
  {
    hide Sliced, CondCode;
    var test := CondCode(c, base + ExprSize(c) + 3 + |body| + 2, tm, ids);
    CondSliced(c, base + ExprSize(c) + 3 + |body| + 2, tm, ids);
    JumpSliced(base);
    SlicedTwo(test, body);
    SlicedTwo(test + body, [OpCell(JmpCode), NumberCell(base)]);
  }

  lemma DoWhileCellsSliced(body: seq<Cell>, base: nat, c: Expr, tm: seq<bool>, ids: seq<string>)
    requires Sliced(body)
    ensures Sliced(DoWhileCells(body, base, c, tm, ids))
  {
    hide Sliced, ExprCode;
    var jump := [OpCell(JnzCode), NumberCell(base), ExprSymbol(c, tm, ids)];
    TestSliced(c, JnzCode, base, tm, ids);
    SlicedTwo(body, ExprCode(c, tm, ids) + jump);
    assert body + ExprCode(c, tm, ids) + jump == body + (ExprCode(c, tm, ids) + jump);
  }

  lemma ForCellsSliced(c: Expr, step: Simple, base: nat, body: seq<Cell>, tm: seq<bool>, ids: seq<string>)
    requires Sliced(body)
    ensures Sliced(ForCells(c, step, base, body, tm, ids))
  {
    hide Sliced, ForHead;
    var end := ForBodyAt(c, step, base) + |body| + 2;
    var head := ForHead(c, step, base, end, tm, ids);
    ForHeadSliced(c, step, base, end, tm, ids);
    JumpSliced(ForStepAt(c, base));
    SlicedTwo(head, body);
    SlicedTwo(head + body, [OpCell(JmpCode), NumberCell(ForStepAt(c, base))]);
  }

  lemma {:induction false} BranchesSliced(r: Branches, base: nat, end: nat, brk: nat, cont: nat, tm: seq<bool>,
      ids: seq<string>)
    ensures Sliced(BranchesCode(r, base, end, brk, cont, tm, ids))
    decreases r
  {
    hide Sliced, StmtCode, BranchesCode, CondCode, StmtTemps, StmtIds, StmtSize, BranchesSize, ExprSize;
    var jump := [OpCell(JmpCode), NumberCell(end)];
    JumpSliced(end);
    match r
    case ElsIf(c, b, rest) =>
      ElsIfUnfolds(c, b, rest, base, end, brk, cont, tm, ids);
      var start := base + 2 + ExprSize(c) + 3;
      var next := start + StmtSize(b);
      var test, body, more := CondCode(c, next + 2, tm, ids), StmtCode(b, start, brk, cont, tm, ids),
          BranchesCode(rest, next, end, brk, cont, StmtTemps(b, tm), StmtIds(b, ids));
      CondSliced(c, next + 2, tm, ids);
      StmtSliced(b, start, brk, cont, tm, ids);
      BranchesSliced(rest, next, end, brk, cont, StmtTemps(b, tm), StmtIds(b, ids));
      SlicedTwo(jump, test);
      SlicedTwo(body, more);
      SlicedTwo(jump + test, body + more);
    case Else(b) =>
      ElseUnfolds(b, base, end, brk, cont, tm, ids);
      StmtSliced(b, base + 2, brk, cont, tm, ids);
      SlicedTwo(jump, StmtCode(b, base + 2, brk, cont, tm, ids));
  }

  // ---------------------------------------------------------------- runs

  /** An operator cell is the first of its instruction. */
  lemma {:induction false} OperatorStarts(parts: seq<seq<Cell>>, i: nat) returns (k: nat)
    requires Instructions(parts) && i < |Flat(parts)| && Flat(parts)[i].OpCell?
    ensures k < |parts| && |Flat(parts[..k])| == i
    decreases |parts|
  {
    var n := |parts| - 1;
    var front := parts[..n];
    assert parts == front + [parts[n]];
    FlatSnoc(front, parts[n]);
    if i < |Flat(front)| {
      k := OperatorStarts(front, i);
      assert front[..k] == parts[..k];
    } else {
      assert Instruction(parts[n]);
      assert Flat(parts)[i] == parts[n][i - |Flat(front)|];
      k := n;
    }
  }

  /** Executing an instruction consumes exactly its cells, unless it jumps or reports an error. */
  lemma ExecuteConsumes(code: seq<Cell>, vm: Vm, p: seq<Cell>)
    requires 0 <= vm.idx && At(code, vm.idx, p) && Instruction(p) && vm.fault == NoFault
    ensures
      var vm' := Execute(code, vm);
      vm'.fault == NoFault && !Jumps.JumpOp(p[0]) ==> vm'.idx == vm.idx + |p|
  {
    hide GetValue, BinaryValue, UnaryValue, Bitwise64;
    var i := vm.idx;
    forall k | 0 <= k < |p| ensures code[i + k] == p[k] {
      AtIndex(code, i, p, k);
    }
  }

  /**
   Decode alignment: compiled code is a row of instructions, and on every run from
   any contents of the tables the index is the start of one of them or the end.
   */
  lemma RunsAligned(s: Stmt, tm: seq<bool>, ids: seq<string>, vm: Vm, n: nat) returns (parts: seq<seq<Cell>>, k: nat)
    requires Compile(s, tm, ids).status.Ok? && |tm| == MAX_TEMP_COUNT && |Compile(s, tm, ids).code| < CODE_LIMIT
    requires |Compile(s, tm, ids).ids| <= MAX_VAR_COUNT == |vm.globals| == |vm.locals| && |vm.temps| == MAX_TEMP_COUNT
    requires vm.idx == 0 && vm.fault == NoFault
    ensures Instructions(parts) && Flat(parts) == Compile(s, tm, ids).code && k <= |parts|
    ensures var vm' := RunFor(Compile(s, tm, ids).code, vm, n); vm'.fault == NoFault ==> vm'.idx == |Flat(parts[..k])|
  {
    hide Compile, RunFor, StmtOk, StmtCode, StmtTemps, StmtIds, StmtSize, Compilation.Safe, Instruction, Flat;
    var code := Compile(s, tm, ids).code;
    Misuse.CompileExact(s, tm, ids);
    StmtSliced(s, 0, PLACEHOLDER, 0, tm, ids);
    parts :| Instructions(parts) && Flat(parts) == code;
    k := |parts|;
    assert parts[..k] == parts;
    Correctness.NeverWild(s, tm, ids, vm, n);
    var vm' := RunFor(code, vm, n);
    if vm'.fault == NoFault && vm'.idx < |code| {
      k := OperatorStarts(parts, vm'.idx);
    }
  }
}
