/**
 The script machine: decodes one instruction at the current cell and performs
 it.  The driver repeats this while the index is inside the code and no error
 was reported.
 */
module Machine {
  import opened Words
  import opened Registers
  import opened Script
  import opened Codegen

  const MAX_VAR_COUNT: nat := 512

  /** What a script shows to the outside. */
  datatype Event =
    | Reported(report: Report, value: u64)
    | Printed(format: string, values: seq<u64>)

  /** Wild: a cell that is no operator was decoded, or something outside its table was touched. */
  datatype Fault = NoFault | DivideByZero | Wild

  datatype Vm = Vm(idx: int, fault: Fault, globals: seq<u64>, locals: seq<u64>, temps: seq<u64>, regs: RegFile,
      out: seq<Event>)

  /** The value of an operand cell; None when the source would read outside a table or return nothing. */
  function GetValue(vm: Vm, c: Cell): Option<u64> {
    match c
    case GlobalCell(i) => if i < |vm.globals| then Some(vm.globals[i]) else None
    case LocalCell(i) => if i < |vm.locals| then Some(vm.locals[i]) else None
    case NumberCell(n) => Some(AsWord(n))
    case RegisterCell(r) => Some(ReadRegister(vm.regs, r))
    case TempCell(i) => if i < |vm.temps| then Some(vm.temps[i]) else None
    case _ => None
  }

  function GetValues(vm: Vm, cs: seq<Cell>): Option<seq<u64>> {
    if cs == [] then Some([])
    else
      match (GetValue(vm, cs[0]), GetValues(vm, cs[1..]))
      case (Some(v), Some(vs)) => Some([v] + vs)
      case _ => None
  }

  function Lost(vm: Vm): Vm {
    vm.(fault := Wild)
  }

  /** Stores into a variable, a temporary or a register; other cells take no value. */
  function SetValue(vm: Vm, c: Cell, v: u64): Vm {
    match c
    case GlobalCell(i) => if i < |vm.globals| then vm.(globals := vm.globals[i := v]) else Lost(vm)
    case LocalCell(i) => if i < |vm.locals| then vm.(locals := vm.locals[i := v]) else Lost(vm)
    case TempCell(i) => if i < |vm.temps| then vm.(temps := vm.temps[i := v]) else Lost(vm)
    case RegisterCell(r) => vm.(regs := WriteRegister(vm.regs, r, v))
    case _ => vm
  }

  /** The conversion of a 64-bit jump target to the `int` index of the driver. */
  function ToIndex(v: u64): int {
    var w := v % 0x1_0000_0000;
    if w < 0x8000_0000 then w else w - 0x1_0000_0000
  }

  function ExecuteBinary(vm: Vm, op: BinaryOp, src0: Cell, src1: Cell, des: Cell): Vm {
    match (GetValue(vm, src0), GetValue(vm, src1))
    case (Some(a), Some(b)) =>
      (match BinaryValue(op, b, a)
       case None => vm.(idx := vm.idx + 4, fault := DivideByZero)
       case Some(v) => SetValue(vm.(idx := vm.idx + 4), des, v))
    case _ => Lost(vm)
  }

  function ExecuteUnary(vm: Vm, op: UnaryOp, src0: Cell, des: Cell): Vm {
    match GetValue(vm, src0)
    case Some(a) => SetValue(vm.(idx := vm.idx + 3), des, UnaryValue(op, a))
    case None => Lost(vm)
  }

  function ExecuteMov(vm: Vm, src0: Cell, des: Cell): Vm {
    match GetValue(vm, src0)
    case Some(a) => SetValue(vm.(idx := vm.idx + 3), des, a)
    case None => Lost(vm)
  }

  /** INC and DEC: `delta` is added modulo 2^64. */
  function ExecuteBump(vm: Vm, delta: int, place: Cell): Vm {
    match GetValue(vm, place)
    case Some(a) => SetValue(vm.(idx := vm.idx + 2), place, (a + delta) % TWO64)
    case None => Lost(vm)
  }

  function ExecuteReport(vm: Vm, r: Report, src0: Cell): Vm {
    match GetValue(vm, src0)
    case Some(a) => vm.(idx := vm.idx + 2, out := vm.out + [Reported(r, a)])
    case None => Lost(vm)
  }

  /** JZ and JNZ: the target comes first, then the tested operand. */
  function ExecuteBranch(vm: Vm, onZero: bool, target: Cell, src1: Cell): Vm {
    match (GetValue(vm, target), GetValue(vm, src1))
    case (Some(t), Some(a)) => vm.(idx := if (a == 0) == onZero then ToIndex(t) else vm.idx + 3)
    case _ => Lost(vm)
  }

  function ExecuteJmp(vm: Vm, target: Cell): Vm {
    match GetValue(vm, target)
    case Some(t) => vm.(idx := ToIndex(t))
    case None => Lost(vm)
  }

  /** PRINTF: skips the cells of the format string, reads the count, then that many arguments. */
  function ExecutePrintf(code: seq<Cell>, vm: Vm): Vm
    requires 0 <= vm.idx < |code|
  {
    var i := vm.idx + 1;
    if i >= |code| || !code[i].TextCell? then Lost(vm)
    else
      var j := i + 1 + (8 + |code[i].text|) / 16;
      if j >= |code| || !code[j].CountCell? || j + 1 + code[j].count > |code| then Lost(vm)
      else
        var k := j + 1 + code[j].count;
        match GetValues(vm, code[j + 1..k])
        case Some(vs) => vm.(idx := k, out := vm.out + [Printed(code[i].text, vs)])
        case None => Lost(vm)
  }

  /** The number of cells of an instruction, the variable part of PRINTF aside. */
  function Width(op: Opcode): nat {
    match op
    case UnaryCode(_) => 3
    case BinaryCode(_) => 4
    case MovCode => 3
    case IncCode => 2
    case DecCode => 2
    case JzCode => 3
    case JnzCode => 3
    case JmpCode => 2
    case ReportCode(_) => 2
    case PrintfCode => 1
  }

  function Execute(code: seq<Cell>, vm: Vm): Vm
    requires 0 <= vm.idx < |code|
  {
    var i := vm.idx;
    match code[i]
    case OpCell(op) =>
      if i + Width(op) > |code| then Lost(vm)
      else
        (match op
         case UnaryCode(uop) => ExecuteUnary(vm, uop, code[i + 1], code[i + 2])
         case BinaryCode(bop) => ExecuteBinary(vm, bop, code[i + 1], code[i + 2], code[i + 3])
         case MovCode => ExecuteMov(vm, code[i + 1], code[i + 2])
         case IncCode => ExecuteBump(vm, 1, code[i + 1])
         case DecCode => ExecuteBump(vm, -1, code[i + 1])
         case JzCode => ExecuteBranch(vm, true, code[i + 1], code[i + 2])
         case JnzCode => ExecuteBranch(vm, false, code[i + 1], code[i + 2])
         case JmpCode => ExecuteJmp(vm, code[i + 1])
         case ReportCode(r) => ExecuteReport(vm, r, code[i + 1])
         case PrintfCode => ExecutePrintf(code, vm))
    case _ => Lost(vm)
  }

  /** The driver's loop ends when the index leaves the code or an error was reported. */
  predicate Halted(code: seq<Cell>, vm: Vm) {
    vm.fault != NoFault || vm.idx < 0 || vm.idx >= |code|
  }

  /** The machine after `n` rounds of the driver's loop. */
  function RunFor(code: seq<Cell>, vm: Vm, n: nat): Vm
    decreases n
  {
    if n == 0 || Halted(code, vm) then vm else RunFor(code, Execute(code, vm), n - 1)
  }

  lemma {:induction false} RunForSum(code: seq<Cell>, vm: Vm, m: nat, n: nat)
    ensures RunFor(code, vm, m + n) == RunFor(code, RunFor(code, vm, m), n)
    decreases m
  {
    hide Execute;
    if m == 0 {
    } else if Halted(code, vm) {
    } else {
      RunForSum(code, Execute(code, vm), m - 1, n);
    }
  }

  lemma RunForOne(code: seq<Cell>, vm: Vm)
    requires !Halted(code, vm)
    ensures RunFor(code, vm, 1) == Execute(code, vm)
  {
    assert RunFor(code, Execute(code, vm), 0) == Execute(code, vm);
  }

  /** A machine that still runs later was running before. */
  lemma RunningBefore(code: seq<Cell>, vm: Vm, m: nat, n: nat)
    requires m <= n && !Halted(code, RunFor(code, vm, n))
    ensures !Halted(code, RunFor(code, vm, m))
  {
    RunForSum(code, vm, m, n - m);
  }

  /** A machine that has stopped stays as it is. */
  lemma StoppedAfter(code: seq<Cell>, vm: Vm, m: nat, n: nat)
    requires m <= n && Halted(code, RunFor(code, vm, m))
    ensures RunFor(code, vm, n) == RunFor(code, vm, m)
  {
    RunForSum(code, vm, m, n - m);
  }
}
