/**
 What becomes of the statements the generator cannot handle: a continue that
 stands directly in a `for` body, and a break or continue outside everything.
 Together with `StmtGenerates` this says exactly which scripts compile.
 */
module Misuse {
  import opened Words
  import opened Script
  import opened Codegen
  import opened Layout
  import opened Stacks
  import opened Backpatch
  import opened Refinement
  import opened Compilation

  /** The step address of the enclosing `for` is on the stack twice. */
  predicate Doubled(g: Gen, bs: seq<nat>, g': Gen) {
    g'.status.Ok? && g'.stack == Insert(g.stack, Numbers(bs)) + [NumberTok(ContinueTarget(g.stack))]
  }

  /** An unsafe statement stops the compiler, or leaves the step address of its `for` doubled. */
  predicate Spoils(g: Gen, bs: seq<nat>, g': Gen) {
    !g'.status.Ok? || (SpotOf(g.stack) == ForBody && Doubled(g, bs, g'))
  }

  lemma {:induction false} UnsafeSpoils(g: Gen, s: Stmt) returns (bs: seq<nat>)
    requires Ready(g) && !Safe(s, SpotOf(g.stack))
    ensures Spoils(g, bs, Run(g, StmtActions(s)))
    decreases s, 1
  {
    bs := [];
    match s
    case Break =>
      RunOne(g, Generate(BreakRule));
    case Continue =>
      ContinueSpoils(g);
    case Seq(a, b) =>
      bs := SeqSpoils(g, a, b);
    case If(c, t, r) =>
      IfSpoils(g, c, t, r);
    case While(c, b) =>
      WhileSpoils(g, c, b);
    case DoWhile(b, c) =>
      DoWhileSpoils(g, b, c);
    case For(c, step, b) =>
      ForSpoils(g, c, step, b);
  }

  /** With nothing above the saved address, a continue pushes that address a second time. */
  lemma ContinueSpoils(g: Gen)
    requires Ready(g) && SpotOf(g.stack) != Nested
    ensures Spoils(g, [], Run(g, StmtActions(Continue)))
  {
    hide Run, Insert, HasFor, AboveIncDec;
    RunOne(g, Generate(ContinueRule));
    assert Run(g, [Generate(ContinueRule)]) == GenContinue(g);
    if SpotOf(g.stack) == ForBody {
      SavedAddress(g.stack);
      InsertNothing(g.stack);
      assert Numbers([]) == [];
      assert AboveIncDec(g.stack) == [NumberTok(ContinueTarget(g.stack))];
    }
  }

  lemma SpoilsStop(g: Gen, a: seq<Action>, b: seq<Action>)
    requires !Run(g, a).status.Ok?
    ensures !Run(g, a + b).status.Ok?
  {
    hide Run;
    RunAppend(g, a, b);
    RunStops(Run(g, a), b);
  }

  lemma {:induction false} SeqSpoils(g: Gen, a: Stmt, b: Stmt) returns (bs: seq<nat>)
    requires Ready(g) && !Safe(Seq(a, b), SpotOf(g.stack))
    ensures Spoils(g, bs, Run(g, StmtActions(Seq(a, b))))
    decreases Seq(a, b), 0
  {
    hide Run, Insert, HasLoop, HasFor, ContinueTarget, SpotOf, Shaped, StmtActions, StmtBreaks, StmtCode, StmtTemps,
      StmtIds, StmtOk;
    SeqUnfolds(a, b, 0, 0, 0, g.temps, g.ids);
    RunAppend(g, StmtActions(a), StmtActions(b));
    var g1 := Run(g, StmtActions(a));
    var spot := SpotOf(g.stack);
    bs := [];
    if Safe(a, spot) {
      StmtGenerates(g, a);
      if Compiles(g, a) {
        var b1 := StmtBreaks(a, |g.code|);
        InsertIsInvisible(g.stack, b1);
        var b2 := UnsafeSpoils(g1, b);
        InsertTwice(g.stack, Numbers(b1), Numbers(b2));
        assert Numbers(b2) + Numbers(b1) == Numbers(b2 + b1);
        bs := b2 + b1;
      } else {
        RunStops(g1, StmtActions(b));
      }
    } else {
      var b1 := UnsafeSpoils(g, a);
      if g1.status.Ok? {
        bs := SeqDoubled(g, b1, g1, b);
      } else {
        RunStops(g1, StmtActions(b));
      }
    }
  }

  /** Once the address is doubled, the following statements keep it so, or stop the compiler. */
  lemma {:induction false} SeqDoubled(g: Gen, b1: seq<nat>, g1: Gen, b: Stmt) returns (bs: seq<nat>)
    requires Ready(g) && Doubled(g, b1, g1)
    ensures var g2 := Run(g1, StmtActions(b)); !g2.status.Ok? || Doubled(g, bs, g2)
    decreases b, 2
  {
    hide Run, Insert, HasLoop, HasFor, ContinueTarget, SpotOf, Shaped, StmtActions, StmtBreaks, StmtCode, StmtTemps,
      StmtIds, StmtOk;
    var ins, saved := Insert(g.stack, Numbers(b1)), [NumberTok(ContinueTarget(g.stack))];
    InsertIsInvisible(g.stack, b1);
    AddressContext(ins, saved);
    bs := [];
    if Safe(b, Nested) {
      StmtGenerates(g1, b);
      if Compiles(g1, b) {
        var b2 := StmtBreaks(b, |g1.code|);
        InsertAbove(ins, Numbers(b2), saved);
        InsertTwice(g.stack, Numbers(b1), Numbers(b2));
        assert Numbers(b2) + Numbers(b1) == Numbers(b2 + b1);
        bs := b2 + b1;
      }
    } else {
      var _ := UnsafeSpoils(g1, b);
    }
  }

  lemma {:induction false} IfSpoils(g: Gen, c: Expr, t: Stmt, r: Branches)
    requires Ready(g) && !(Safe(t, Nested) && SafeBranches(r))
    ensures !Run(g, StmtActions(If(c, t, r))).status.Ok?
    decreases If(c, t, r), 0
  {
    hide Run, ExprActions, StmtActions, BranchesActions, ExprOk, StmtOk, CondCode, ExprSize, StmtCode, StmtBreaks,
      StmtTemps, StmtIds,
      Insert, HasLoop, HasFor, ContinueTarget, SpotOf, Shaped;
    var a1, a2 := [Generate(StartOfIf)], ExprActions(c) + [Generate(Jz)];
    var head := a1 + a2 + StmtActions(t);
    IfActions(c, t, r);
    if Safe(t, Nested) {
      IfHead(g, c, t);
      var g1 := Run(g, head);
      RunAppend(g, head, BranchesActions(r));
      if ExprOk(c, g.temps, g.ids) && Compiles(g, t) {
        var start := |g.code| + ExprSize(c) + 3;
        var ins := Insert(g.stack, Numbers(StmtBreaks(t, start)));
        InsertIsInvisible(g.stack, StmtBreaks(t, start));
        AddressContext(ins, [Mark(IfMark)]);
        PatchCond(g.code, c, PLACEHOLDER, 0, StmtCode(t, start, PLACEHOLDER, ContinueTarget(g.stack), g.temps, g.ids),
            g.temps, g.ids);
        BranchesSpoil(g1, ins + [Mark(IfMark)], start, r);
      } else {
        RunStops(g1, BranchesActions(r));
      }
    } else {
      RunAppend(g, a1, a2);
      RunAppend(g, a1 + a2, StmtActions(t));
      IfStarts(g);
      var g1 := Run(g, a1);
      JzGenerates(g1, c);
      var g2 := Run(g1, a2);
      if ExprOk(c, g.temps, g.ids) {
        var above := [Mark(IfMark), NumberTok(|g.code| + ExprSize(c) + 3)];
        assert g2.stack == g.stack + above;
        AddressContext(g.stack, above);
        var _ := UnsafeSpoils(g2, t);
      } else {
        RunStops(g2, StmtActions(t));
      }
      SpoilsStop(g, head, BranchesActions(r));
    }
    SpoilsStop(g, head + BranchesActions(r), [Generate(EndOfIf)]);
  }

  lemma {:induction false} BranchesSpoil(g: Gen, below: seq<Token>, jz: nat, r: Branches)
    requires g.status.Ok? && Shaped(below) && g.stack == below + [NumberTok(jz)] && Patchable(g.code, jz - 2)
    requires !SafeBranches(r)
    ensures !Run(g, BranchesActions(r)).status.Ok?
    decreases r, 1
  {
    hide Run, ExprActions, StmtActions, BranchesActions, ExprOk, StmtOk, CondCode, ExprSize, StmtCode, StmtBreaks,
      StmtTemps, StmtIds,
      Insert, HasLoop, HasFor, ContinueTarget, SpotOf, Shaped;
    match r
    case Else(b) =>
      ElseActions(b);
      RunAppend(g, [Generate(JmpToEndAndJzCompleted)], StmtActions(b));
      JmpToEndFires(g, below, jz);
      AddressContext(below, [NumberTok(|g.code|)]);
      var _ := UnsafeSpoils(Run(g, [Generate(JmpToEndAndJzCompleted)]), b);
    case ElsIf(c, b, rest) =>
      var a1, a2 := [Generate(JmpToEndAndJzCompleted)], ExprActions(c) + [Generate(Jz)];
      var head := a1 + a2 + StmtActions(b);
      ElsIfActions(c, b, rest);
      if Safe(b, Nested) {
        ElsIfHead(g, below, jz, c, b);
        RunAppend(g, head, BranchesActions(rest));
        var g1 := Run(g, head);
        if ExprOk(c, g.temps, g.ids) && StmtOk(b, HasLoop(below), HasFor(below), g.temps, g.ids) {
          var start := |g.code| + 2 + ExprSize(c) + 3;
          var ins := Insert(below, Numbers(StmtBreaks(b, start)));
          InsertIsInvisible(below, StmtBreaks(b, start));
          AddressContext(ins, [NumberTok(|g.code|)]);
          var pre := Patch(g.code, jz - 2, |g.code| + 2) + [OpCell(JmpCode), NumberCell(PLACEHOLDER)];
          PatchCond(pre, c, PLACEHOLDER, 0, StmtCode(b, start, PLACEHOLDER, ContinueTarget(below), g.temps, g.ids),
              g.temps, g.ids);
          BranchesSpoil(g1, ins + [NumberTok(|g.code|)], start, rest);
        } else {
          RunStops(g1, BranchesActions(rest));
        }
      } else {
        RunAppend(g, a1, a2);
        RunAppend(g, a1 + a2, StmtActions(b));
        JmpToEndFires(g, below, jz);
        var g1 := Run(g, a1);
        JzGenerates(g1, c);
        var g2 := Run(g1, a2);
        if ExprOk(c, g.temps, g.ids) {
          var above := [NumberTok(|g.code|), NumberTok(|g1.code| + ExprSize(c) + 3)];
          assert g2.stack == below + above;
          AddressContext(below, above);
          var _ := UnsafeSpoils(g2, b);
        } else {
          RunStops(g2, StmtActions(b));
        }
        SpoilsStop(g, head, BranchesActions(rest));
      }
  }

  lemma ElseActions(b: Stmt)
    ensures BranchesActions(Else(b)) == [Generate(JmpToEndAndJzCompleted)] + StmtActions(b)
  {
  }

  lemma {:induction false} WhileSpoils(g: Gen, c: Expr, b: Stmt)
    requires Ready(g) && !Safe(b, Nested)
    ensures !Run(g, StmtActions(While(c, b))).status.Ok?
    decreases While(c, b), 0
  {
    hide Run, ExprActions, ExprOk, CondCode, StmtActions, HasLoop, HasFor, ContinueTarget, SpotOf, Shaped, ExprSize;
    var head := [Generate(StartOfWhile)] + (ExprActions(c) + [Generate(StartOfWhileCommands)]);
    WhileActions(c, b);
    RunAppend(g, head, StmtActions(b));
    WhileHead(g, c);
    var g1 := Run(g, head);
    if ExprOk(c, g.temps, g.ids) {
      LoopContext(g.stack, WhileMark, [|g.code| + ExprSize(c) + 1, |g.code|]);
      var _ := UnsafeSpoils(g1, b);
    } else {
      RunStops(g1, StmtActions(b));
    }
    SpoilsStop(g, head + StmtActions(b), [Generate(EndOfWhile)]);
  }

  lemma {:induction false} DoWhileSpoils(g: Gen, b: Stmt, c: Expr)
    requires Ready(g) && !Safe(b, Nested)
    ensures !Run(g, StmtActions(DoWhile(b, c))).status.Ok?
    decreases DoWhile(b, c), 0
  {
    hide Run, ExprActions, StmtActions, HasLoop, HasFor, ContinueTarget, SpotOf, Shaped;
    var start := [Generate(StartOfDoWhile)];
    DoWhileActions(b, c);
    RunAppend(g, start, StmtActions(b));
    StartFires(g, StartOfDoWhile, DoWhileMark);
    var g1 := Run(g, start);
    assert g1.stack == g.stack + [Mark(DoWhileMark)] + Numbers([|g.code|]);
    LoopContext(g.stack, DoWhileMark, [|g.code|]);
    var _ := UnsafeSpoils(g1, b);
    SpoilsStop(g, start + StmtActions(b), ExprActions(c) + [Generate(EndOfDoWhile)]);
  }

  /** At the end of a `for` with a doubled address the @INC_DEC marker is taken for an address. */
  lemma EndOfForCrashes(g: Gen, below: seq<Token>, step: nat)
    requires g.status.Ok? && g.stack == below + [Mark(IncDecMark), NumberTok(step), NumberTok(step)]
    ensures Run(g, [Generate(EndOfFor)]).status == Undefined
  {
    hide Run;
    RunOne(g, Generate(EndOfFor));
    assert Below(Below(g.stack)) == below + [Mark(IncDecMark)];
    assert Top(below + [Mark(IncDecMark)]) == Mark(IncDecMark);
  }

  lemma {:induction false} ForSpoils(g: Gen, c: Expr, step: Simple, b: Stmt)
    requires Ready(g) && !Safe(b, ForBody)
    ensures !Run(g, StmtActions(For(c, step, b))).status.Ok?
    decreases For(c, step, b), 0
  {
    hide Run, ExprActions, SimpleActions, ExprOk, SimpleOk, ForHead, StmtActions, Insert, HasLoop, HasFor,
      ContinueTarget, SpotOf, Shaped, ExprTemps, SimpleIds, ExprSize, SimpleSize;
    var head := [Generate(StartOfFor)] + (ExprActions(c) + [Generate(ForIncDec)]) + SimpleActions(step)
        + [Generate(StartOfForCommands)];
    var tail := [Generate(EndOfFor)];
    ForActions(c, step, b);
    RunAppend(g, head, StmtActions(b));
    RunAppend(g, head + StmtActions(b), tail);
    ForStart(g, c, step);
    var g1 := Run(g, head);
    var g2 := Run(g1, StmtActions(b));
    if ExprOk(c, g.temps, g.ids) && SimpleOk(step, ExprTemps(c, g.temps), g.ids) {
      var jz, stepAt := |g.code| + ExprSize(c) + 1, ForStepAt(c, |g.code|);
      ForContext(g.stack, jz, stepAt);
      var bs := UnsafeSpoils(g1, b);
      if g2.status.Ok? {
        ForBreaks(g.stack, bs, jz, stepAt);
        var below := g.stack + [Mark(ForMark)] + Numbers(bs + [jz]);
        assert g2.stack == below + [Mark(IncDecMark), NumberTok(stepAt), NumberTok(stepAt)];
        EndOfForCrashes(g2, below, stepAt);
      } else {
        RunStops(g2, tail);
      }
    } else {
      RunStops(g1, StmtActions(b));
      RunStops(g1, tail);
    }
  }

  // ---------------------------------------------------------------- whole scripts

  /**
   Exactly which scripts compile, and to what: the safe ones whose variables are
   assigned before use, whose breaks and continues are inside loops and whose
   temporaries suffice.  The operand stack is then empty again.
   */
  lemma CompileExact(s: Stmt, tm: seq<bool>, ids: seq<string>)
    ensures Compile(s, tm, ids).status.Ok? <==> Safe(s, TopLevel) && StmtOk(s, false, false, tm, ids)
    ensures Compile(s, tm, ids).status.Ok? ==>
            Compile(s, tm, ids) == Gen([], StmtCode(s, 0, PLACEHOLDER, 0, tm, ids), StmtTemps(s, tm), StmtIds(s, ids),
                Ok)
    ensures Safe(s, TopLevel) ==> Compile(s, tm, ids).status != Undefined
  {
    hide Run, StmtOk, StmtCode, StmtTemps, StmtIds, StmtActions, StmtBreaks, Safe;
    var g := Start(tm, ids);
    if Safe(s, TopLevel) {
      StmtGenerates(g, s);
    } else {
      var _ := UnsafeSpoils(g, s);
    }
  }

  /** A `for` loop whose body is a bare continue makes the compiler write through a marker. */
  lemma BareContinueIsUndefined(c: Expr, step: Simple, tm: seq<bool>, ids: seq<string>)
    requires ExprOk(c, tm, ids) && SimpleOk(step, ExprTemps(c, tm), ids)
    ensures Compile(For(c, step, Continue), tm, ids).status == Undefined
  {
    hide Run, ExprActions, SimpleActions, ExprOk, SimpleOk, ForHead, Insert, HasLoop, HasFor, ContinueTarget, SpotOf,
      Shaped, ExprTemps, SimpleIds, ExprSize, SimpleSize;
    var g := Start(tm, ids);
    var head := [Generate(StartOfFor)] + (ExprActions(c) + [Generate(ForIncDec)]) + SimpleActions(step)
        + [Generate(StartOfForCommands)];
    ForActions(c, step, Continue);
    RunAppend(g, head, StmtActions(Continue));
    RunAppend(g, head + StmtActions(Continue), [Generate(EndOfFor)]);
    ForStart(g, c, step);
    var g1 := Run(g, head);
    var g2 := Run(g1, StmtActions(Continue));
    var jz, stepAt := ExprSize(c) + 1, ForStepAt(c, 0);
    assert Shaped([]) by { EmptyShaped(); }
    ForContext(g.stack, jz, stepAt);
    BareContinue(g1);
    var below := g.stack + [Mark(ForMark), NumberTok(jz)];
    assert g2.stack == below + [Mark(IncDecMark), NumberTok(stepAt), NumberTok(stepAt)];
    EndOfForCrashes(g2, below, stepAt);
  }

  lemma EmptyShaped()
    ensures Shaped([])
  {
  }

  lemma BareContinue(g: Gen)
    requires Ready(g) && SpotOf(g.stack) == ForBody
    ensures Run(g, StmtActions(Continue)).status.Ok?
    ensures Run(g, StmtActions(Continue)).stack == g.stack + [NumberTok(ContinueTarget(g.stack))]
  {
    hide Run, HasFor, AboveIncDec;
    RunOne(g, Generate(ContinueRule));
    SavedAddress(g.stack);
    assert AboveIncDec(g.stack) == [NumberTok(ContinueTarget(g.stack))];
  }
}
