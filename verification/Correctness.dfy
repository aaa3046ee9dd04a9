/**
 The compiler and the machine together: a script that compiles runs as it
 means, in both directions, and the machine never leaves the instructions.
 */
module Correctness {
  import opened Words
  import opened Registers
  import opened Script
  import opened Codegen
  import opened Layout
  import opened Stacks
  import opened Machine
  import opened Semantics
  import opened Refinement
  import opened Preservation
  import opened Simulation
  import Compilation
  import Misuse

  // ---------------------------------------------------------------- facts about the meaning of scripts

  /** A script that compiles lets no break or continue escape. */
  lemma {:induction false} NoEscape(s: Stmt, st: State, clock: nat, inLoop: bool, inFor: bool, tm: seq<bool>,
      ids: seq<string>)
    requires StmtOk(s, inLoop, inFor, tm, ids)
    ensures !inLoop ==> !Exec(s, st, clock).Broke?
    ensures !inFor ==> !Exec(s, st, clock).Continued?
    decreases clock, s
  {
    hide Eval, EvalAll, ExecSimple, ExprOk, SimpleOk, ArgsOk;
    match s
    case Seq(a, b) =>
      NoEscape(a, st, clock, inLoop, inFor, tm, ids);
      var r := Exec(a, st, clock);
      if r.Normal? {
        NoEscape(b, r.st, r.clock, inLoop, inFor, StmtTemps(a, tm), StmtIds(a, ids));
      }
    case If(c, t, rest) =>
      NoEscape(t, st, clock, inLoop, inFor, tm, ids);
      NoEscapeBranches(rest, st, clock, inLoop, inFor, StmtTemps(t, tm), StmtIds(t, ids));
    case While(c, b) =>
      if clock > 0 {
        hide Exec;
        ExecWhile(c, b, st, clock);
        NoEscape(b, st, clock - 1, true, inFor, tm, ids);
        var r := Exec(b, st, clock - 1);
        if r.Normal? {
          NoEscape(s, r.st, r.clock, inLoop, inFor, tm, ids);
        }
      }
    case DoWhile(b, c) =>
      hide Exec;
      ExecDoWhile(b, c, st, clock);
      NoEscape(b, st, clock, true, inFor, tm, ids);
      var r := Exec(b, st, clock);
      if r.Normal? && r.clock > 0 {
        NoEscape(s, r.st, r.clock - 1, inLoop, inFor, tm, ids);
      }
    case For(c, step, b) =>
      if clock > 0 {
        hide Exec;
        ExecFor(c, step, b, st, clock);
        var r := Exec(b, st, clock - 1);
        if (r.Normal? || r.Continued?) && ExecSimple(step, r.st).Some? {
          NoEscape(s, ExecSimple(step, r.st).value, r.clock, inLoop, inFor, tm, ids);
        }
      }
    case Skip => case Do(_) => case Break => case Continue => case Call(_, _) => case Printf(_, _) =>
  }

  lemma {:induction false} NoEscapeBranches(r: Branches, st: State, clock: nat, inLoop: bool, inFor: bool,
      tm: seq<bool>, ids: seq<string>)
    requires BranchesOk(r, inLoop, inFor, tm, ids)
    ensures !inLoop ==> !ExecBranches(r, st, clock).Broke?
    ensures !inFor ==> !ExecBranches(r, st, clock).Continued?
    decreases clock, r
  {
    hide Eval, ExprOk;
    match r
    case ElsIf(c, b, rest) =>
      NoEscape(b, st, clock, inLoop, inFor, tm, ids);
      NoEscapeBranches(rest, st, clock, inLoop, inFor, StmtTemps(b, tm), StmtIds(b, ids));
    case Else(b) =>
      NoEscape(b, st, clock, inLoop, inFor, tm, ids);
  }

  /** The same outcome with `more` clock left over. */
  function Later(r: Outcome, more: nat): Outcome {
    match r
    case Normal(st, k) => Normal(st, k + more)
    case Broke(st, k) => Broke(st, k + more)
    case Continued(st, k) => Continued(st, k + more)
    case _ => r
  }

  /** A script that has ended ends the same way with more clock: its meaning does not depend on the clock. */
  lemma {:induction false} MoreClock(s: Stmt, st: State, clock: nat, more: nat)
    requires !Exec(s, st, clock).Timeout?
    ensures Exec(s, st, clock + more) == Later(Exec(s, st, clock), more)
    decreases clock, s
  {
    hide Eval, EvalAll, ExecSimple, Exec, ExecBranches;
    match s
    case Seq(a, b) =>
      ExecSeq(a, b, st, clock);
      ExecSeq(a, b, st, clock + more);
      MoreClock(a, st, clock, more);
      var r := Exec(a, st, clock);
      if r.Normal? {
        MoreClock(b, r.st, r.clock, more);
      }
    case If(c, t, rest) =>
      ExecIf(c, t, rest, st, clock);
      ExecIf(c, t, rest, st, clock + more);
      if Eval(c, st).Some? {
        if Eval(c, st).value != 0 {
          MoreClock(t, st, clock, more);
        } else {
          MoreClockBranches(rest, st, clock, more);
        }
      }
    case While(c, b) =>
      if clock == 0 {
        ExecNoClock(s, st);
      } else {
        ExecWhile(c, b, st, clock);
        ExecWhile(c, b, st, clock + more);
        if Eval(c, st).Some? && Eval(c, st).value != 0 {
          MoreClock(b, st, clock - 1, more);
          var r := Exec(b, st, clock - 1);
          if r.Normal? {
            MoreClock(s, r.st, r.clock, more);
          }
        }
      }
    case DoWhile(b, c) =>
      ExecDoWhile(b, c, st, clock);
      ExecDoWhile(b, c, st, clock + more);
      MoreClock(b, st, clock, more);
      var r := Exec(b, st, clock);
      if r.Normal? && Eval(c, r.st).Some? && Eval(c, r.st).value != 0 && r.clock > 0 {
        MoreClock(s, r.st, r.clock - 1, more);
      }
    case For(c, step, b) =>
      if clock == 0 {
        ExecNoClock(s, st);
      } else {
        ExecFor(c, step, b, st, clock);
        ExecFor(c, step, b, st, clock + more);
        if Eval(c, st).Some? && Eval(c, st).value != 0 {
          MoreClock(b, st, clock - 1, more);
          var r := Exec(b, st, clock - 1);
          if (r.Normal? || r.Continued?) && ExecSimple(step, r.st).Some? {
            MoreClock(s, ExecSimple(step, r.st).value, r.clock, more);
          }
        }
      }
    case _ =>
      MoreClockPlain(s, st, clock, more);
  }

  lemma MoreClockPlain(s: Stmt, st: State, clock: nat, more: nat)
    requires s.Skip? || s.Do? || s.Break? || s.Continue? || s.Call? || s.Printf?
    ensures Exec(s, st, clock + more) == Later(Exec(s, st, clock), more)
  {
    hide Eval, EvalAll, ExecSimple, ExecBranches;
  }

  lemma {:induction false} MoreClockBranches(r: Branches, st: State, clock: nat, more: nat)
    requires !ExecBranches(r, st, clock).Timeout?
    ensures ExecBranches(r, st, clock + more) == Later(ExecBranches(r, st, clock), more)
    decreases clock, r
  {
    hide Eval;
    match r
    case ElsIf(c, b, rest) =>
      if Eval(c, st).Some? {
        if Eval(c, st).value != 0 {
          MoreClock(b, st, clock, more);
        } else {
          MoreClockBranches(rest, st, clock, more);
        }
      }
    case Else(b) =>
      MoreClock(b, st, clock, more);
  }

  // ---------------------------------------------------------------- the theorems

  /**
   A machine about to run a compiled script whose code and variables fit the
   machine's `int` index and variable tables.
   */
  ghost predicate Loaded(s: Stmt, tm: seq<bool>, ids: seq<string>, st: State, vm: Vm) {
    var g := Compile(s, tm, ids);
    && g.status.Ok? && |tm| == MAX_TEMP_COUNT
    && |g.code| < CODE_LIMIT
    && vm.idx == 0 && vm.fault == NoFault
    && Agree(st, vm, g.ids)
  }

  /** The machine has ended as the script did. */
  ghost predicate EndedAs(code: seq<Cell>, vm: Vm, r: Outcome, ids: seq<string>) {
    match r
    case Normal(st, _) => vm.fault == NoFault && vm.idx == |code| && Agree(st, vm, ids)
    case Faulted(st) => vm.fault == DivideByZero && Agree(st, vm, ids)
    case _ => false
  }

  /**
   Forward: a script that ends is followed by the machine to the end of the code,
   or to the reported division by zero, with the same variables, registers and
   output; one that has used up its clock keeps the machine running at least as long.
   */
  lemma ScriptRuns(s: Stmt, tm: seq<bool>, ids: seq<string>, st: State, vm: Vm, clock: nat) returns (n: nat)
    requires Loaded(s, tm, ids, st, vm)
    ensures
      var g, r := Compile(s, tm, ids), Exec(s, st, clock);
      var vm' := RunFor(g.code, vm, n);
      if r.Timeout? then n >= clock && !Halted(g.code, vm') else EndedAs(g.code, vm', r, g.ids)
  {
    hide Agree, Exec, RunFor, Compile, StmtOk, StmtCode, StmtIds, StmtTemps, StmtSize, Compilation.Safe;
    var g := Compile(s, tm, ids);
    Misuse.CompileExact(s, tm, ids);
    NoEscape(s, st, clock, false, false, tm, ids);
    WholeCode(g.code);
    n := StmtRuns(g.code, vm, st, s, clock, PLACEHOLDER, 0, false, false, tm, ids, g.ids);
  }

  lemma WholeCode(code: seq<Cell>)
    ensures At(code, 0, code)
  {
  }

  /**
   Backward: when the machine stops after `n` steps, the script has ended within
   n + 1 loop iterations, and in the same way.
   */
  lemma MachineMeansScript(s: Stmt, tm: seq<bool>, ids: seq<string>, st: State, vm: Vm, n: nat)
    requires Loaded(s, tm, ids, st, vm)
    requires Halted(Compile(s, tm, ids).code, RunFor(Compile(s, tm, ids).code, vm, n))
    ensures
      var g := Compile(s, tm, ids);
      EndedAs(g.code, RunFor(g.code, vm, n), Exec(s, st, n + 1), g.ids)
  {
    hide Agree, Exec, RunFor, Compile;
    var code := Compile(s, tm, ids).code;
    var m := ScriptRuns(s, tm, ids, st, vm, n + 1);
    if Exec(s, st, n + 1).Timeout? {
      RunningBefore(code, vm, n, m);
      assert false;
    } else if m <= n {
      StoppedAfter(code, vm, m, n);
    } else {
      StoppedAfter(code, vm, n, m);
    }
  }

  /** Whatever the machine's tables hold is the state of some script. */
  lemma StateOf(vm: Vm, ids: seq<string>) returns (st: State)
    requires |ids| <= |vm.globals| && |ids| <= |vm.locals| && |vm.temps| == MAX_TEMP_COUNT
    ensures Agree(st, vm, ids)
  {
    var places := (set name | name in ids :: Variable(Global, name))
        + (set name | name in ids :: Variable(Local, name));
    var vars := map p | p in places && p.Variable? && p.name in ids :: SlotValue(vm, p, ids);
    st := State(vars, vm.regs, vm.out);
    forall p: Place | p.Variable? && p.name in ids
      ensures Slot(vm, p, ids) == Some(ReadPlace(st, p))
    {
      assert p in places by {
        if p.kind == Global {
          assert p == Variable(Global, p.name);
        } else {
          assert p == Variable(Local, p.name);
        }
      }
    }
  }

  function SlotValue(vm: Vm, p: Place, ids: seq<string>): u64
    requires p.Variable? && p.name in ids && |ids| <= |vm.globals| && |ids| <= |vm.locals|
  {
    Slot(vm, p, ids).value
  }

  /**
   Safety of every run: from any contents of the tables the machine only ever
   decodes operators, never touches anything outside its tables, and its index
   is always the start of an instruction or the end of the code.
   */
  lemma NeverWild(s: Stmt, tm: seq<bool>, ids: seq<string>, vm: Vm, n: nat)
    requires Compile(s, tm, ids).status.Ok? && |tm| == MAX_TEMP_COUNT && |Compile(s, tm, ids).code| < CODE_LIMIT
    requires |Compile(s, tm, ids).ids| <= MAX_VAR_COUNT == |vm.globals| == |vm.locals| && |vm.temps| == MAX_TEMP_COUNT
    requires vm.idx == 0 && vm.fault == NoFault
    ensures
      var code := Compile(s, tm, ids).code;
      var vm' := RunFor(code, vm, n);
      && vm'.fault != Wild
      && (vm'.fault == NoFault ==> vm'.idx == |code| || (0 <= vm'.idx < |code| && code[vm'.idx].OpCell?))
  {
    hide Agree, Exec, RunFor, Compile;
    var g := Compile(s, tm, ids);
    var st := StateOf(vm, g.ids);
    var vm1, vm2 := RunFor(g.code, vm, n), RunFor(g.code, vm, n + 1);
    if Halted(g.code, vm1) {
      MachineMeansScript(s, tm, ids, st, vm, n);
    } else {
      RunForSum(g.code, vm, n, 1);
      RunForOne(g.code, vm1);
      if Halted(g.code, vm2) {
        MachineMeansScript(s, tm, ids, st, vm, n + 1);
      }
      assert vm2.fault != Wild && vm2 == Execute(g.code, vm1);
      assert g.code[vm1.idx].OpCell?;
    }
  }
}
