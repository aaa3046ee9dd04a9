/**
 A script from its statements to its effects: compiled by the generator, loaded
 into the machine and driven.
 */
module Session {
  import opened Words
  import opened Script
  import opened Codegen
  import opened Layout
  import opened Stacks
  import opened Machine
  import opened Semantics
  import opened Preservation
  import opened Correctness
  import opened Generator
  import opened ScriptMachine
  import opened Temps
  import opened TempsNeeded
  import Compilation
  import Misuse

  /**
   Compiles one more script of a session.  It succeeds exactly when the script's
   names are assigned before use and its temporaries fit beside those leaked by
   earlier scripts; a failed script gives all temporaries back.
   */
  method CompileScript(gen: CodeGenerator, s: Stmt) returns (ok: bool)
    requires Compilation.Safe(s, TopLevel)
    modifies gen, gen.temps
    ensures ok <==>
            StmtKnown(s, false, false, old(gen.ids)) && Taken(old(gen.temps[..])) + StmtPeak(s) <= gen.temps.Length
    ensures ok ==> gen.State() == Compile(s, old(gen.temps[..]), old(gen.ids)) && gen.status.Ok? && gen.stack == []
    ensures ok ==> Taken(gen.temps[..]) == Taken(old(gen.temps[..])) + Leak(s)
    ensures !ok ==> Taken(gen.temps[..]) == 0
  {
    hide Run, StmtKnown, StmtPeak, Leak, Taken, StmtOk, StmtCode, StmtIds, StmtTemps, StmtActions, Compilation.Safe;
    CompilesIffFits(s, gen.temps[..], gen.ids);
    Misuse.CompileExact(s, gen.temps[..], gen.ids);
    gen.Parse(StmtActions(s));
    ok := gen.status.Ok?;
    NoneTaken(gen.temps.Length);
  }

  /**
   Compiles a script and drives the machine for at most `limit` rounds.  When it
   has stopped by then, variables, registers and output are those the script means,
   and it stopped with an error exactly when the script divides by zero.
   */
  method RunScript(gen: CodeGenerator, vm: Interpreter, s: Stmt, limit: nat, ghost st: State) returns (ok: bool,
      ended: bool)
    requires Compilation.Safe(s, TopLevel)
    requires gen.temps.Length == MAX_TEMP_COUNT && vm.Valid()
    requires vm.globals.Length == vm.locals.Length == MAX_VAR_COUNT && vm.temps.Length == MAX_TEMP_COUNT
    requires var g := Compile(s, gen.temps[..], gen.ids); |g.code| < CODE_LIMIT && |g.ids| <= MAX_VAR_COUNT
    requires Agree(st, vm.State(), Compile(s, gen.temps[..], gen.ids).ids)
    modifies gen, gen.temps, vm, vm.globals, vm.locals, vm.temps
    ensures ok ==> gen.State() == Compile(s, old(gen.temps[..]), old(gen.ids))
    ensures ok && ended ==> EndedAs(gen.code, vm.State(), Exec(s, st, limit + 1), gen.ids)
    ensures ok && !ended ==> vm.fault == NoFault && 0 <= vm.idx < |gen.code| && gen.code[vm.idx].OpCell?
  {
    hide Run, Compile, StmtKnown, StmtPeak, Leak, Taken, StmtOk, StmtCode, StmtIds, StmtTemps, StmtActions,
      Compilation.Safe, Exec, Agree, RunFor;
    ghost var tm, ids := gen.temps[..], gen.ids;
    ok := CompileScript(gen, s);
    ended := false;
    if ok {
      vm.idx, vm.fault := 0, NoFault;
      ghost var start := vm.State();
      AgreeReset(st, old(vm.State()), start, gen.ids);
      forall n: nat ensures RunFor(gen.code, start, n).fault != Wild {
        NeverWild(s, tm, ids, start, n);
      }
      vm.Drive(gen.code, limit);
      NeverWild(s, tm, ids, start, limit);
      ended := vm.fault != NoFault || vm.idx < 0 || vm.idx >= |gen.code|;
      if ended {
        MachineMeansScript(s, tm, ids, st, start, limit);
      }
    }
  }

  lemma AgreeReset(st: State, vm: Vm, start: Vm, ids: seq<string>)
    requires Agree(st, vm, ids) && start == vm.(idx := start.idx, fault := start.fault)
    ensures Agree(st, start, ids)
  {
    forall p: Place | p.Variable? && p.name in ids
      ensures Slot(start, p, ids) == Some(ReadPlace(st, p))
    {
      assert Slot(vm, p, ids) == Some(ReadPlace(st, p));
    }
  }
}
