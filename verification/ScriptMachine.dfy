/**
 The script machine as it is written: variable tables that are updated in place,
 an index that moves over the cells as operands are fetched, and the loop of the
 driver.  The methods are proved to do what module Machine says.
 */
module ScriptMachine {
  import opened Words
  import opened Registers
  import opened Script
  import opened Codegen
  import opened Machine
  import opened Semantics
  import opened Preservation
  import opened Correctness

  class Interpreter {
    const globals: array<u64>
    const locals: array<u64>
    const temps: array<u64>
    var regs: RegFile
    var idx: int
    var fault: Fault
    var out: seq<Event>

    ghost predicate Valid() {
      globals != locals && globals != temps && locals != temps
    }

    ghost function State(): Vm
      reads this, globals, locals, temps
    {
      Vm(idx, fault, globals[..], locals[..], temps[..], regs, out)
    }

    constructor ()
      ensures Valid() && fresh(globals) && fresh(locals) && fresh(temps)
      ensures globals.Length == locals.Length == MAX_VAR_COUNT && temps.Length == MAX_TEMP_COUNT
      ensures idx == 0 && fault == NoFault && out == []
    {
      globals := new u64[MAX_VAR_COUNT](_ => 0);
      locals := new u64[MAX_VAR_COUNT](_ => 0);
      temps := new u64[MAX_TEMP_COUNT](_ => 0);
      regs := seq(15, _ => 0);
      idx, fault, out := 0, NoFault, [];
    }

    /** The value of an operand cell. */
    method Value(c: Cell) returns (v: u64)
      requires GetValue(State(), c).Some?
      ensures GetValue(State(), c) == Some(v)
    {
      match c
      case GlobalCell(i) => v := globals[i];
      case LocalCell(i) => v := locals[i];
      case NumberCell(n) => v := AsWord(n);
      case RegisterCell(r) => v := ReadRegister(regs, r);
      case TempCell(i) => v := temps[i];
    }

    /** Stores into a variable, a temporary or a register; other cells take no value. */
    method Store(c: Cell, v: u64)
      requires Valid() && SetValue(State(), c, v).fault != Wild
      modifies this`regs, globals, locals, temps
      ensures State() == SetValue(old(State()), c, v)
    {
      match c
      case GlobalCell(i) => globals[i] := v;
      case LocalCell(i) => locals[i] := v;
      case TempCell(i) => temps[i] := v;
      case RegisterCell(r) => regs := WriteRegister(regs, r, v);
      case _ =>
    }

    /** The cell under the index; the index moves on. */
    method Fetch(code: seq<Cell>) returns (c: Cell)
      requires 0 <= idx < |code|
      modifies this`idx
      ensures c == code[old(idx)] && idx == old(idx) + 1
    {
      c := code[idx];
      idx := idx + 1;
    }

    method Binary(code: seq<Cell>, op: BinaryOp)
      requires Valid() && fault == NoFault && 1 <= idx <= |code| - 3
      requires ExecuteBinary(State().(idx := idx - 1), op, code[idx], code[idx + 1], code[idx + 2]).fault != Wild
      modifies this, globals, locals, temps
      ensures State() == ExecuteBinary(old(State().(idx := idx - 1)), op, code[old(idx)], code[old(idx) + 1],
        code[old(idx) + 2])
    {
      hide BinaryValue, GetValue, SetValue;
      ghost var vm := State();
      MovedValue(vm, code[idx], idx - 1);
      MovedValue(vm, code[idx], idx + 1);
      MovedValue(vm, code[idx + 1], idx - 1);
      MovedValue(vm, code[idx + 1], idx + 2);
      var src0 := Fetch(code);
      var a := Value(src0);
      var src1 := Fetch(code);
      var b := Value(src1);
      var des := Fetch(code);
      match BinaryValue(op, b, a)
      case None => fault := DivideByZero;
      case Some(v) => Store(des, v);
    }

    method Unary(code: seq<Cell>, op: UnaryOp)
      requires Valid() && fault == NoFault && 1 <= idx <= |code| - 2
      requires ExecuteUnary(State().(idx := idx - 1), op, code[idx], code[idx + 1]).fault != Wild
      modifies this, globals, locals, temps
      ensures State() == ExecuteUnary(old(State().(idx := idx - 1)), op, code[old(idx)], code[old(idx) + 1])
    {
      hide UnaryValue;
      var src0 := Fetch(code);
      var a := Value(src0);
      var des := Fetch(code);
      Store(des, UnaryValue(op, a));
    }

    method Move(code: seq<Cell>)
      requires Valid() && fault == NoFault && 1 <= idx <= |code| - 2
      requires ExecuteMov(State().(idx := idx - 1), code[idx], code[idx + 1]).fault != Wild
      modifies this, globals, locals, temps
      ensures State() == ExecuteMov(old(State().(idx := idx - 1)), code[old(idx)], code[old(idx) + 1])
    {
      var src0 := Fetch(code);
      var a := Value(src0);
      var des := Fetch(code);
      Store(des, a);
    }

    method Bump(code: seq<Cell>, delta: int)
      requires Valid() && fault == NoFault && 1 <= idx <= |code| - 1
      requires ExecuteBump(State().(idx := idx - 1), delta, code[idx]).fault != Wild
      modifies this, globals, locals, temps
      ensures State() == ExecuteBump(old(State().(idx := idx - 1)), delta, code[old(idx)])
    {
      var src0 := Fetch(code);
      var a := Value(src0);
      Store(src0, (a + delta) % TWO64);
    }

    method Branch(code: seq<Cell>, onZero: bool)
      requires Valid() && fault == NoFault && 1 <= idx <= |code| - 2
      requires ExecuteBranch(State().(idx := idx - 1), onZero, code[idx], code[idx + 1]).fault != Wild
      modifies this`idx
      ensures State() == ExecuteBranch(old(State().(idx := idx - 1)), onZero, code[old(idx)], code[old(idx) + 1])
    {
      var src0 := Fetch(code);
      var target := Value(src0);
      var src1 := Fetch(code);
      var a := Value(src1);
      if (a == 0) == onZero {
        idx := ToIndex(target);
      }
    }

    method Print(code: seq<Cell>)
      requires Valid() && fault == NoFault && 1 <= idx <= |code|
      requires ExecutePrintf(code, State().(idx := idx - 1)).fault != Wild
      modifies this`idx, this`out
      ensures State() == ExecutePrintf(code, old(State().(idx := idx - 1)))
    {
      hide GetValue;
      ghost var vm := State().(idx := idx - 1);
      var text := Fetch(code);
      idx := idx + (8 + |text.text|) / 16;
      var count := Fetch(code);
      ghost var from := idx;
      ghost var cells := code[idx..idx + count.count];
      var values: seq<u64> := [];
      for i := 0 to count.count
        invariant idx == from + i && State() == vm.(idx := idx)
        invariant GetValues(vm, cells[..i]) == Some(values)
      {
        ValuesGrow(vm, cells, i);
        MovedValue(vm, cells[i], idx + 1);
        assert code[idx] == cells[i];
        var c := Fetch(code);
        var v := Value(c);
        values := values + [v];
      }
      assert cells[..count.count] == cells;
      out := out + [Printed(text.text, values)];
    }

    /** `ScriptEngineExecute`: one instruction; the result tells whether an error was reported. */
    method Step(code: seq<Cell>) returns (failed: bool)
      requires Valid() && fault == NoFault && 0 <= idx < |code| && Execute(code, State()).fault != Wild
      modifies this, globals, locals, temps
      ensures State() == Execute(code, old(State()))
      ensures failed == (fault != NoFault)
    {
      hide ExecuteBinary, ExecuteUnary, ExecuteMov, ExecuteBump, ExecuteBranch, ExecutePrintf;
      var op := Fetch(code);
      match op.op {
      case UnaryCode(uop) => Unary(code, uop);
      case BinaryCode(bop) => Binary(code, bop);
      case MovCode => Move(code);
      case IncCode => Bump(code, 1);
      case DecCode => Bump(code, -1);
      case JzCode => Branch(code, true);
      case JnzCode => Branch(code, false);
      case JmpCode =>
        var c := Fetch(code);
        var target := Value(c);
        idx := ToIndex(target);
      case ReportCode(r) =>
        var c := Fetch(code);
        var v := Value(c);
        out := out + [Reported(r, v)];
      case PrintfCode => Print(code);
      }
      failed := fault != NoFault;
    }

    /** The driver's loop, cut off after `limit` rounds. */
    method Drive(code: seq<Cell>, limit: nat)
      requires Valid() && forall n: nat :: RunFor(code, State(), n).fault != Wild
      modifies this, globals, locals, temps
      ensures State() == RunFor(code, old(State()), limit)
    {
      hide Execute;
      ghost var start := State();
      var n := 0;
      var failed := fault != NoFault;
      while n < limit && 0 <= idx < |code| && !failed
        invariant n <= limit && failed == (fault != NoFault)
        invariant State() == RunFor(code, start, n)
      {
        RunForOne(code, State());
        RunForSum(code, start, n, 1);
        assert RunFor(code, start, n + 1).fault != Wild;
        failed := Step(code);
        n := n + 1;
      }
      if n < limit {
        StoppedAfter(code, start, n, limit);
      }
    }
  }

  lemma MovedValue(vm: Vm, c: Cell, i: int)
    ensures GetValue(vm.(idx := i), c) == GetValue(vm, c)
  {
  }

  lemma {:induction false} ValuesGrow(vm: Vm, cells: seq<Cell>, i: nat)
    requires i < |cells| && GetValues(vm, cells).Some?
    ensures GetValue(vm, cells[i]).Some? && GetValues(vm, cells[..i]).Some?
    ensures GetValues(vm, cells[..i + 1]) == Some(GetValues(vm, cells[..i]).value + [GetValue(vm, cells[i]).value])
    decreases i
  {
    if i == 0 {
      assert cells[..0] == [] && cells[..1][1..] == [] && GetValues(vm, []) == Some([]);
      var v := GetValue(vm, cells[0]).value;
      assert [v] + [] == [] + [v];
    } else {
      ValuesGrow(vm, cells[1..], i - 1);
      assert cells[..i][1..] == cells[1..][..i - 1] && cells[..i + 1][1..] == cells[1..][..i];
      var v, vs, w := GetValue(vm, cells[0]).value, GetValues(vm, cells[1..][..i - 1]).value,
          GetValue(vm, cells[i]).value;
      assert [v] + (vs + [w]) == [v] + vs + [w];
    }
  }
}
