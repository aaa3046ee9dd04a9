/**
 Compiling statements: for every statement and every compiler state, the
 semantic rules either fail or append exactly the layout of the statement,
 leave the operand stack as it was but for saved break addresses, and change
 the temporary map and the identifier table as the layout says.
 */
module Compilation {
  import opened Words
  import opened Script
  import opened Codegen
  import opened Layout
  import opened Stacks
  import opened Backpatch
  import opened Refinement

  // ---------------------------------------------------------------- statements the source handles

  /**
   No break or continue meets an empty stack, and no continue stands directly in
   a `for` body, outside every inner `if` and loop.
   */
  predicate Safe(s: Stmt, spot: Spot) {
    match s
    case Seq(a, b) => Safe(a, spot) && Safe(b, spot)
    case If(_, t, r) => Safe(t, Nested) && SafeBranches(r)
    case While(_, b) => Safe(b, Nested)
    case DoWhile(b, _) => Safe(b, Nested)
    case For(_, _, b) => Safe(b, ForBody)
    case Break => spot != TopLevel
    case Continue => spot == Nested
    case _ => true
  }

  predicate SafeBranches(r: Branches) {
    match r
    case ElsIf(_, b, rest) => Safe(b, Nested) && SafeBranches(rest)
    case Else(b) => Safe(b, Nested)
  }

  predicate Ready(g: Gen) {
    g.status.Ok? && Shaped(g.stack)
  }

  predicate Compiles(g: Gen, s: Stmt) {
    StmtOk(s, HasLoop(g.stack), HasFor(g.stack), g.temps, g.ids)
  }

  function AfterStmt(g: Gen, s: Stmt): Gen {
    g.(stack := Insert(g.stack, Numbers(StmtBreaks(s, |g.code|))),
       code := g.code + StmtCode(s, |g.code|, PLACEHOLDER, ContinueTarget(g.stack), g.temps, g.ids),
       temps := StmtTemps(s, g.temps),
       ids := StmtIds(s, g.ids))
  }

  /** What is to be shown of a statement. */
  predicate Generates(g: Gen, s: Stmt) {
    if Compiles(g, s) then Run(g, StmtActions(s)) == AfterStmt(g, s)
    else Run(g, StmtActions(s)).status.Failed?
  }

  lemma {:induction false} StmtGenerates(g: Gen, s: Stmt)
    requires Ready(g) && Safe(s, SpotOf(g.stack))
    ensures Generates(g, s)
    decreases s, 1
  {
    hide Generates, Shaped, SpotOf;
    match s
    case Skip =>
      SkipGenerates(g);
    case Seq(a, b) =>
      SeqGenerates(g, a, b);
    case Do(a) =>
      DoGenerates(g, a);
    case If(c, t, r) =>
      IfGenerates(g, c, t, r);
    case While(c, b) =>
      WhileGenerates(g, c, b);
    case DoWhile(b, c) =>
      DoWhileGenerates(g, b, c);
    case For(c, step, b) =>
      ForGenerates(g, c, step, b);
    case Break =>
      BreakGenerates(g);
    case Continue =>
      ContinueGenerates(g);
    case Call(r, e) =>
      CallGenerates(g, r, e);
    case Printf(f, args) =>
      PrintfGenerates(g, f, args);
  }

  // ---------------------------------------------------------------- straight-line statements

  lemma SkipGenerates(g: Gen)
    requires Ready(g)
    ensures Generates(g, Skip)
  {
    InsertNothing(g.stack);
    assert Numbers([]) == [];
    assert g.code + [] == g.code;
  }

  lemma DoGenerates(g: Gen, a: Simple)
    requires Ready(g)
    ensures Generates(g, Do(a))
  {
    hide Run, SimpleActions, SimpleOk, SimpleCode, SimpleIds;
    SimpleGenerates(g, a);
    InsertNothing(g.stack);
    assert Numbers([]) == [];
  }

  lemma ReportFires(g: Gen, below: seq<Token>, r: Report, t: Token)
    requires g.status.Ok? && g.stack == below + [t] && Operand(t)
    ensures
      var g' := Run(g, [Generate(ReportRule(r))]);
      if Resolved(t) then g' == g.(stack := below, code := g.code + [OpCell(ReportCode(r)), Symbol(t, g.ids)])
      else g'.status.Failed?
  {
    hide Run, Symbol, Release, PatchDown, PatchAll;
    RunOne(g, Generate(ReportRule(r)));
    assert Below(g.stack) == below;
  }

  lemma CallUnfolds(g: Gen, r: Report, e: Expr)
    ensures
      var s := Call(r, e);
      && StmtActions(s) == ExprActions(e) + [Generate(ReportRule(r))]
      && StmtCode(s, |g.code|, PLACEHOLDER, ContinueTarget(g.stack), g.temps, g.ids) == CallCells(r, e, g.temps, g.ids)
      && StmtBreaks(s, |g.code|) == []
      && StmtTemps(s, g.temps) == ExprTemps(e, g.temps) && StmtIds(s, g.ids) == g.ids
      && Compiles(g, s) == ExprOk(e, g.temps, g.ids)
  {
    hide ExprActions, ExprOk, ExprTemps, CallCells;
  }

  lemma CallGenerates(g: Gen, r: Report, e: Expr)
    requires Ready(g)
    ensures Generates(g, Call(r, e))
  {
    hide Run, ExprActions, ExprOk, ExprTemps, ExprToken, ExprCode, Symbol, StmtActions, StmtCode, StmtBreaks,
      StmtTemps, StmtIds, StmtOk, Insert;
    var rule := Generate(ReportRule(r));
    CallUnfolds(g, r, e);
    CondGenerates(g, e, rule);
    UnresolvedToken(e, g.temps, g.ids);
    var g1, t := AfterExpr(g, e), ExprToken(e, g.temps, g.ids);
    ReportFires(g1, g.stack, r, t);
    InsertNothing(g.stack);
    assert Numbers([]) == [];
    var call := [OpCell(ReportCode(r)), Symbol(t, g.ids)];
    assert g.code + ExprCode(e, g.temps, g.ids) + call == g.code + CallCells(r, e, g.temps, g.ids);
  }

  lemma {:induction false} SeqGenerates(g: Gen, a: Stmt, b: Stmt)
    requires Ready(g) && Safe(Seq(a, b), SpotOf(g.stack))
    ensures Generates(g, Seq(a, b))
    decreases Seq(a, b), 0
  {
    hide Run, StmtCode, StmtTemps, StmtIds, StmtBreaks, StmtActions, StmtSize, Insert, HasLoop, HasFor, ContinueTarget,
      SpotOf, Shaped;
    var g1 := Run(g, StmtActions(a));
    var base := |g.code|;
    SeqUnfolds(a, b, base, PLACEHOLDER, ContinueTarget(g.stack), g.temps, g.ids);
    RunAppend(g, StmtActions(a), StmtActions(b));
    StmtGenerates(g, a);
    if Compiles(g, a) {
      var breaks := StmtBreaks(a, base);
      InsertIsInvisible(g.stack, breaks);
      StmtGenerates(g1, b);
      if Compiles(g1, b) {
        InsertTwice(g.stack, Numbers(breaks), Numbers(StmtBreaks(b, |g1.code|)));
        assert Numbers(StmtBreaks(b, |g1.code|)) + Numbers(breaks) == Numbers(StmtBreaks(b, |g1.code|) + breaks);
        var x := StmtCode(a, base, PLACEHOLDER, ContinueTarget(g.stack), g.temps, g.ids);
        var y := StmtCode(b, base + StmtSize(a), PLACEHOLDER, ContinueTarget(g.stack), g1.temps, g1.ids);
        assert g.code + x + y == g.code + (x + y);
      }
    } else {
      RunStops(g1, StmtActions(b));
    }
  }

  // ---------------------------------------------------------------- break and continue

  lemma BreakUnfolds(g: Gen)
    ensures
      && StmtActions(Break) == [Generate(BreakRule)]
      && StmtCode(Break, |g.code|, PLACEHOLDER, ContinueTarget(g.stack), g.temps, g.ids) ==
          [OpCell(JmpCode), NumberCell(PLACEHOLDER)]
      && StmtBreaks(Break, |g.code|) == [|g.code| + 1]
      && StmtTemps(Break, g.temps) == g.temps && StmtIds(Break, g.ids) == g.ids
      && Compiles(g, Break) == HasLoop(g.stack)
  {
  }

  lemma ContinueUnfolds(g: Gen)
    ensures
      && StmtActions(Continue) == [Generate(ContinueRule)]
      && StmtCode(Continue, |g.code|, PLACEHOLDER, ContinueTarget(g.stack), g.temps, g.ids) ==
         [OpCell(JmpCode), NumberCell(ContinueTarget(g.stack))]
      && StmtBreaks(Continue, |g.code|) == []
      && StmtTemps(Continue, g.temps) == g.temps && StmtIds(Continue, g.ids) == g.ids
      && Compiles(g, Continue) == HasFor(g.stack)
  {
  }

  lemma BreakGenerates(g: Gen)
    requires Ready(g) && Safe(Break, SpotOf(g.stack))
    ensures Generates(g, Break)
  {
    hide Run, Insert, HasLoop, HasFor, AboveIncDec, StmtActions, StmtCode, StmtBreaks, StmtTemps, StmtIds, StmtOk;
    BreakUnfolds(g);
    RunOne(g, Generate(BreakRule));
    assert Numbers([|g.code| + 1]) == [NumberTok(|g.code| + 1)];
    assert !LoopMark(g.stack[|g.stack| - 1]);
  }

  /** A continue inside an inner statement of a `for` body jumps to the saved step address and keeps the stack. */
  lemma ContinueGenerates(g: Gen)
    requires Ready(g) && Safe(Continue, SpotOf(g.stack))
    ensures Generates(g, Continue)
  {
    hide Run, Insert, HasLoop, HasFor, AboveIncDec, StmtActions, StmtCode, StmtBreaks, StmtTemps, StmtIds, StmtOk;
    ContinueUnfolds(g);
    RunOne(g, Generate(ContinueRule));
    InsertNothing(g.stack);
    assert Numbers([]) == [];
    if HasFor(g.stack) {
      SavedAddress(g.stack);
    }
  }

  // ---------------------------------------------------------------- loops

  /** Closing the jump of a condition. */
  lemma CloseCond(pre: seq<Cell>, c: Expr, w: nat, v: nat, post: seq<Cell>, tm: seq<bool>, ids: seq<string>)
    ensures PatchAll(pre + CondCode(c, w, tm, ids) + post, [|pre| + ExprSize(c) + 1], 0, v)
            == Some(pre + CondCode(c, v, tm, ids) + post)
  {
    hide ExprCode, ExprSymbol;
    var front := pre + ExprCode(c, tm, ids) + [OpCell(JzCode)];
    var back := [ExprSymbol(c, tm, ids)] + post;
    assert pre + CondCode(c, w, tm, ids) + post == front + [NumberCell(w)] + back;
    assert pre + CondCode(c, v, tm, ids) + post == front + [NumberCell(v)] + back;
    PatchMiddle(front, w, back, v);
    var a := [|pre| + ExprSize(c) + 1];
    assert a[..0] == [];
    assert PatchAll(front + [NumberCell(v)] + back, a[..0], 0, v) == Some(front + [NumberCell(v)] + back);
  }

  /** Closing all jumps that leave a loop whose condition comes first. */
  lemma CloseLoop(pre: seq<Cell>, c: Expr, mid: seq<Cell>, b: Stmt, post: seq<Cell>, w: nat, v: nat, cont: nat,
                  tc: seq<bool>, ic: seq<string>, tm: seq<bool>, ids: seq<string>)
    ensures
      var at := |pre| + ExprSize(c) + 3 + |mid|;
      PatchAll(pre + CondCode(c, w, tc, ic) + mid + StmtCode(b, at, w, cont, tm, ids) + post,
               StmtBreaks(b, at) + [|pre| + ExprSize(c) + 1], 0, v)
      == Some(pre + CondCode(c, v, tc, ic) + mid + StmtCode(b, at, v, cont, tm, ids) + post)
  {
    hide PatchAll, CondCode, StmtCode, StmtBreaks;
    var at := |pre| + ExprSize(c) + 3 + |mid|;
    var cw, cv := CondCode(c, w, tc, ic), CondCode(c, v, tc, ic);
    var bw, bv := StmtCode(b, at, w, cont, tm, ids), StmtCode(b, at, v, cont, tm, ids);
    CloseCond(pre, c, w, v, mid + bw + post, tc, ic);
    assert pre + cw + mid + bw + post == pre + cw + (mid + bw + post);
    assert pre + cv + mid + bw + post == pre + cv + (mid + bw + post);
    CloseBreaks(b, pre + cv + mid, post, w, v, cont, tm, ids);
    PatchAllAppend(pre + cw + mid + bw + post, StmtBreaks(b, at), [|pre| + ExprSize(c) + 1], 0, v);
  }

  lemma StartFires(g: Gen, rule: Rule, m: Marker)
    requires g.status.Ok?
    requires (rule, m) in {(StartOfWhile, WhileMark), (StartOfDoWhile, DoWhileMark), (StartOfFor, ForMark)}
    ensures Run(g, [Generate(rule)]) == g.(stack := g.stack + [Mark(m), NumberTok(|g.code|)])
  {
    hide Run;
    RunOne(g, Generate(rule));
  }

  lemma WhileCommandsFires(g: Gen, below: seq<Token>, start: Token, t: Token)
    requires g.status.Ok? && g.stack == below + [start, t] && Operand(t)
    ensures
      var g' := Run(g, [Generate(StartOfWhileCommands)]);
      if Resolved(t) then
        g' == g.(stack := below + [NumberTok(|g.code| + 1), start],
                 code := g.code + [OpCell(JzCode), NumberCell(PLACEHOLDER), Symbol(t, g.ids)],
                 temps := Release(g.temps, t))
      else g'.status.Failed?
  {
    hide Run, Symbol, Release, PatchDown, PatchAll;
    RunOne(g, Generate(StartOfWhileCommands));
    assert Below(g.stack) == below + [start];
    assert Below(Below(g.stack)) == below;
  }

  lemma EndOfWhileFires(g: Gen, below: seq<Token>, addrs: seq<nat>, start: nat, code: seq<Cell>)
    requires g.status.Ok? && g.stack == below + [Mark(WhileMark)] + Numbers(addrs) + [NumberTok(start)]
    requires PatchAll(g.code + [OpCell(JmpCode), NumberCell(start)], addrs, 0, |g.code| + 2) == Some(code)
    ensures Run(g, [Generate(EndOfWhile)]) == g.(stack := below, code := code)
  {
    hide PatchAll, PatchDown;
    RunOne(g, Generate(EndOfWhile));
    assert Below(g.stack) == below + [Mark(WhileMark)] + Numbers(addrs);
    PatchDownAll(below, WhileMark, addrs, g.code + [OpCell(JmpCode), NumberCell(start)], 0, |g.code| + 2);
  }

  /** A condition and the rule that consumes it; `acts` runs up to the rule. */
  lemma CondGenerates(g: Gen, c: Expr, rule: Action)
    requires g.status.Ok?
    ensures
      var g1 := AfterExpr(g, c);
      if ExprOk(c, g.temps, g.ids) || c.Read? then Run(g, ExprActions(c) + [rule]) == Run(g1, [rule])
      else Run(g, ExprActions(c) + [rule]).status.Failed?
  {
    hide Run, ExprActions, ExprOk;
    RunAppend(g, ExprActions(c), [rule]);
    ExprGenerates(g, c);
    if !Run(g, ExprActions(c)).status.Ok? {
      RunStops(Run(g, ExprActions(c)), [rule]);
    }
  }

  /** The head of a while loop. */
  lemma WhileHead(g: Gen, c: Expr)
    requires g.status.Ok?
    ensures
      var acts := [Generate(StartOfWhile)] + (ExprActions(c) + [Generate(StartOfWhileCommands)]);
      var base := |g.code|;
      if ExprOk(c, g.temps, g.ids) then
        Run(g, acts) == g.(stack := g.stack + [Mark(WhileMark)] + Numbers([base + ExprSize(c) + 1, base]),
                           code := g.code + CondCode(c, PLACEHOLDER, g.temps, g.ids))
      else Run(g, acts).status.Failed?
  {
    hide Run, ExprActions, ExprOk, ExprTemps, ExprToken, ExprCode, Symbol, Release;
    var rule := Generate(StartOfWhileCommands);
    var g1 := g.(stack := g.stack + [Mark(WhileMark), NumberTok(|g.code|)]);
    StartFires(g, StartOfWhile, WhileMark);
    RunAppend(g, [Generate(StartOfWhile)], ExprActions(c) + [rule]);
    CondGenerates(g1, c, rule);
    UnresolvedToken(c, g.temps, g.ids);
    var g2 := AfterExpr(g1, c);
    var t := ExprToken(c, g.temps, g.ids);
    assert g2.stack == (g.stack + [Mark(WhileMark)]) + [NumberTok(|g.code|), t];
    WhileCommandsFires(g2, g.stack + [Mark(WhileMark)], NumberTok(|g.code|), t);
    if ExprOk(c, g.temps, g.ids) {
      OkFits(c, g.temps, g.ids);
      ReleaseExpr(c, g.temps, g.ids);
      assert Run(g2, [rule]).stack == g.stack + [Mark(WhileMark)] + Numbers([|g.code| + ExprSize(c) + 1, |g.code|]);
      assert Run(g2, [rule]).code == g.code + CondCode(c, PLACEHOLDER, g.temps, g.ids);
    }
  }

  lemma WhileCloses(pre: seq<Cell>, c: Expr, b: Stmt, brk: nat, cont: nat, tm: seq<bool>, ids: seq<string>)
    ensures
      var base := |pre|;
      var at := base + ExprSize(c) + 3;
      PatchAll(pre + CondCode(c, PLACEHOLDER, tm, ids) + StmtCode(b, at, PLACEHOLDER, cont, tm, ids)
          + [OpCell(JmpCode), NumberCell(base)],
               StmtBreaks(b, at) + [base + ExprSize(c) + 1], 0, at + StmtSize(b) + 2)
      == Some(pre + StmtCode(While(c, b), base, brk, cont, tm, ids))
  {
    hide CondCode, StmtCode, StmtTemps, StmtIds, StmtBreaks, StmtSize, PatchAll, ExprSize;
    var base := |pre|;
    var at := base + ExprSize(c) + 3;
    var end, back := at + StmtSize(b) + 2, [OpCell(JmpCode), NumberCell(base)];
    CloseLoop(pre, c, [], b, back, PLACEHOLDER, end, cont, tm, ids, tm, ids);
    var cw, cv := CondCode(c, PLACEHOLDER, tm, ids), CondCode(c, end, tm, ids);
    var bw, bv := StmtCode(b, at, PLACEHOLDER, cont, tm, ids), StmtCode(b, at, end, cont, tm, ids);
    assert pre + cw + [] + bw + back == pre + cw + bw + back;
    assert pre + cv + [] + bv + back == pre + (cv + bv + back);
    WhileUnfolds(c, b, base, brk, cont, tm, ids);
  }

  /** The end of a while loop: the jump back, and every jump out closed. */
  lemma WhileTail(g: Gen, c: Expr, b: Stmt, g2: Gen)
    requires g.status.Ok?
    requires
      var base := |g.code|;
      var at := base + ExprSize(c) + 3;
      g2 == g.(stack := g.stack + [Mark(WhileMark)] + Numbers(StmtBreaks(b, at) + [base + ExprSize(c) + 1])
          + [NumberTok(base)],
               code := g.code + CondCode(c, PLACEHOLDER, g.temps, g.ids)
                       + StmtCode(b, at, PLACEHOLDER, ContinueTarget(g.stack), g.temps, g.ids),
               temps := StmtTemps(b, g.temps),
               ids := StmtIds(b, g.ids))
    ensures Run(g2, [Generate(EndOfWhile)]) == AfterStmt(g, While(c, b))
  {
    hide Run, CondCode, StmtCode, StmtTemps, StmtIds, StmtBreaks, StmtSize, Insert, ContinueTarget, PatchAll, ExprSize;
    var base, cont := |g.code|, ContinueTarget(g.stack);
    var at := base + ExprSize(c) + 3;
    WhileCloses(g.code, c, b, PLACEHOLDER, cont, g.temps, g.ids);
    WhileUnfolds(c, b, base, PLACEHOLDER, cont, g.temps, g.ids);
    EndOfWhileFires(g2, g.stack, StmtBreaks(b, at) + [base + ExprSize(c) + 1], base,
                    g.code + StmtCode(While(c, b), base, PLACEHOLDER, cont, g.temps, g.ids));
    InsertNothing(g.stack);
    assert Numbers([]) == [];
  }

  lemma {:induction false} WhileGenerates(g: Gen, c: Expr, b: Stmt)
    requires Ready(g) && Safe(b, Nested)
    ensures Generates(g, While(c, b))
    decreases While(c, b), 0
  {
    hide Run, ExprActions, ExprOk, CondCode, StmtCode, StmtTemps, StmtIds, StmtBreaks, StmtActions, StmtSize,
      Insert, HasLoop, HasFor, ContinueTarget, SpotOf, Shaped, StmtOk;
    var head := [Generate(StartOfWhile)] + (ExprActions(c) + [Generate(StartOfWhileCommands)]);
    var tail := [Generate(EndOfWhile)];
    WhileActions(c, b);
    RunAppend(g, head, StmtActions(b));
    RunAppend(g, head + StmtActions(b), tail);
    WhileHead(g, c);
    WhileOk(g, c, b);
    var g1 := Run(g, head);
    var g2 := Run(g1, StmtActions(b));
    if ExprOk(c, g.temps, g.ids) {
      var base := |g.code|;
      var jz := base + ExprSize(c) + 1;
      LoopContext(g.stack, WhileMark, [jz, base]);
      StmtGenerates(g1, b);
      if Compiles(g1, b) {
        var breaks := StmtBreaks(b, base + ExprSize(c) + 3);
        LoopBreaks(g.stack, WhileMark, breaks, [jz, base]);
        assert Numbers(breaks) + Numbers([jz, base]) == Numbers(breaks + [jz]) + [NumberTok(base)];
        assert g2.stack == g.stack + [Mark(WhileMark)] + Numbers(breaks + [jz]) + [NumberTok(base)];
        WhileTail(g, c, b, g2);
      } else {
        RunStops(g2, tail);
      }
    } else {
      RunStops(g1, StmtActions(b));
      RunStops(g1, tail);
    }
  }

  lemma WhileActions(c: Expr, b: Stmt)
    ensures StmtActions(While(c, b)) ==
            [Generate(StartOfWhile)] + (ExprActions(c) + [Generate(StartOfWhileCommands)]) + StmtActions(b)
                + [Generate(EndOfWhile)]
  {
    hide ExprActions;
    assert [Generate(StartOfWhile)] + ExprActions(c) + [Generate(StartOfWhileCommands)]
        == [Generate(StartOfWhile)] + (ExprActions(c) + [Generate(StartOfWhileCommands)]);
  }

  lemma WhileOk(g: Gen, c: Expr, b: Stmt)
    ensures Compiles(g, While(c, b)) <==>
            ExprOk(c, g.temps, g.ids) && StmtOk(b, true, HasFor(g.stack), g.temps, g.ids)
  {
  }

  /** Break addresses land between the loop marker and what the loop saved above it. */
  lemma LoopBreaks(stack: seq<Token>, m: Marker, breaks: seq<nat>, saved: seq<nat>)
    requires LoopMark(Mark(m))
    ensures Insert(stack + [Mark(m)] + Numbers(saved), Numbers(breaks)) ==
            stack + [Mark(m)] + Numbers(breaks) + Numbers(saved)
  {
    InsertAbove(stack + [Mark(m)], Numbers(breaks), Numbers(saved));
    InsertAtMark(stack, Mark(m), Numbers(breaks));
  }

  // ---------------------------------------------------------------- do-while

  lemma EndOfDoWhileFires(g: Gen, below: seq<Token>, addrs: seq<nat>, start: nat, t: Token, code: seq<Cell>)
    requires g.status.Ok? && g.stack == below + [Mark(DoWhileMark)] + Numbers(addrs) + [NumberTok(start), t] &&
      Operand(t)
    requires PatchAll(g.code + [OpCell(JnzCode), NumberCell(start), Symbol(t, g.ids)], addrs, 0, |g.code| + 3) ==
      Some(code)
    ensures
      var g' := Run(g, [Generate(EndOfDoWhile)]);
      if Resolved(t) then g' == g.(stack := below, code := code, temps := Release(g.temps, t))
      else g'.status.Failed?
  {
    hide PatchAll, PatchDown;
    RunOne(g, Generate(EndOfDoWhile));
    assert Below(g.stack) == below + [Mark(DoWhileMark)] + Numbers(addrs) + [NumberTok(start)];
    assert Below(Below(g.stack)) == below + [Mark(DoWhileMark)] + Numbers(addrs);
    PatchDownAll(below, DoWhileMark, addrs, g.code + [OpCell(JnzCode), NumberCell(start), Symbol(t, g.ids)], 0,
        |g.code| + 3);
  }

  lemma DoWhileTail(g: Gen, b: Stmt, c: Expr, g1: Gen)
    requires g.status.Ok?
    requires
      var base := |g.code|;
      g1 == g.(stack := g.stack + [Mark(DoWhileMark)] + Numbers(StmtBreaks(b, base)) + [NumberTok(base)],
               code := g.code + StmtCode(b, base, PLACEHOLDER, ContinueTarget(g.stack), g.temps, g.ids),
               temps := StmtTemps(b, g.temps),
               ids := StmtIds(b, g.ids))
    ensures
      var g' := Run(AfterExpr(g1, c), [Generate(EndOfDoWhile)]);
      if ExprOk(c, g1.temps, g1.ids) then g' == AfterStmt(g, DoWhile(b, c))
      else c.Read? ==> g'.status.Failed?
  {
    hide Run, ExprOk, ExprCode, ExprToken, ExprTemps, Symbol, Release, StmtCode, StmtTemps, StmtIds, StmtBreaks,
      StmtSize, Insert, ContinueTarget, PatchAll;
    var base, cont, breaks := |g.code|, ContinueTarget(g.stack), StmtBreaks(b, |g.code|);
    var g2, t := AfterExpr(g1, c), ExprToken(c, g1.temps, g1.ids);
    var end := base + StmtSize(b) + ExprSize(c) + 3;
    var bw, bv := StmtCode(b, base, PLACEHOLDER, cont, g.temps, g.ids), StmtCode(b, base, end, cont, g.temps, g.ids);
    var cc, jnz := ExprCode(c, g1.temps, g1.ids), [OpCell(JnzCode), NumberCell(base), Symbol(t, g1.ids)];
    UnresolvedToken(c, g1.temps, g1.ids);
    assert g2.stack == g.stack + [Mark(DoWhileMark)] + Numbers(breaks) + [NumberTok(base), t];
    CloseBreaks(b, g.code, cc + jnz, PLACEHOLDER, end, cont, g.temps, g.ids);
    assert g2.code + jnz == g.code + bw + (cc + jnz);
    EndOfDoWhileFires(g2, g.stack, breaks, base, t, g.code + bv + (cc + jnz));
    if ExprOk(c, g1.temps, g1.ids) {
      OkFits(c, g1.temps, g1.ids);
      ReleaseExpr(c, g1.temps, g1.ids);
      DoWhileUnfolds(b, c, base, PLACEHOLDER, cont, g.temps, g.ids);
      InsertNothing(g.stack);
      assert Numbers([]) == [];
      assert g.code + bv + (cc + jnz) == g.code + DoWhileCells(bv, base, c, g1.temps, g1.ids);
    }
  }

  lemma {:induction false} DoWhileGenerates(g: Gen, b: Stmt, c: Expr)
    requires Ready(g) && Safe(b, Nested)
    ensures Generates(g, DoWhile(b, c))
    decreases DoWhile(b, c), 0
  {
    hide Run, ExprActions, ExprOk, ExprCode, ExprToken, ExprTemps, StmtCode, StmtTemps, StmtIds, StmtBreaks,
      StmtActions, StmtSize,
      Insert, HasLoop, HasFor, ContinueTarget, SpotOf, Shaped, StmtOk;
    var start := [Generate(StartOfDoWhile)];
    var tail := ExprActions(c) + [Generate(EndOfDoWhile)];
    DoWhileActions(b, c);
    RunAppend(g, start, StmtActions(b));
    RunAppend(g, start + StmtActions(b), tail);
    StartFires(g, StartOfDoWhile, DoWhileMark);
    DoWhileOk(g, b, c);
    var base := |g.code|;
    var g1 := Run(g, start);
    var g2 := Run(g1, StmtActions(b));
    assert g1.stack == g.stack + [Mark(DoWhileMark)] + Numbers([base]);
    LoopContext(g.stack, DoWhileMark, [base]);
    StmtGenerates(g1, b);
    if Compiles(g1, b) {
      LoopBreaks(g.stack, DoWhileMark, StmtBreaks(b, base), [base]);
      assert g2.stack == g.stack + [Mark(DoWhileMark)] + Numbers(StmtBreaks(b, base)) + [NumberTok(base)];
      CondGenerates(g2, c, Generate(EndOfDoWhile));
      DoWhileTail(g, b, c, g2);
    } else {
      RunStops(g2, tail);
    }
  }

  lemma DoWhileActions(b: Stmt, c: Expr)
    ensures StmtActions(DoWhile(b, c)) ==
            [Generate(StartOfDoWhile)] + StmtActions(b) + (ExprActions(c) + [Generate(EndOfDoWhile)])
  {
    hide ExprActions;
    var x := [Generate(StartOfDoWhile)] + StmtActions(b);
    assert x + ExprActions(c) + [Generate(EndOfDoWhile)] == x + (ExprActions(c) + [Generate(EndOfDoWhile)]);
  }

  lemma DoWhileOk(g: Gen, b: Stmt, c: Expr)
    ensures Compiles(g, DoWhile(b, c)) <==>
            StmtOk(b, true, HasFor(g.stack), g.temps, g.ids) && ExprOk(c, StmtTemps(b, g.temps), StmtIds(b, g.ids))
  {
  }

  // ---------------------------------------------------------------- for

  lemma ForIncDecFires(g: Gen, below: seq<Token>, start: Token, t: Token)
    requires g.status.Ok? && g.stack == below + [start, t] && Operand(t)
    ensures
      var g' := Run(g, [Generate(ForIncDec)]);
      if Resolved(t) then
        g' == g.(stack := below + [NumberTok(|g.code| + 5), start],
                 code := g.code + [OpCell(JzCode), NumberCell(PLACEHOLDER), Symbol(t, g.ids),
                                   OpCell(JmpCode), NumberCell(PLACEHOLDER)])
      else g'.status.Failed?
  {
    hide Run, Symbol, Release, PatchDown, PatchAll;
    RunOne(g, Generate(ForIncDec));
    assert Below(g.stack) == below + [start];
    assert Below(Below(g.stack)) == below;
  }

  lemma ForCommandsFires(g: Gen, below: seq<Token>, step: nat, start: nat)
    requires g.status.Ok? && g.stack == below + [NumberTok(step), NumberTok(start)]
    requires step >= 4 && Patchable(g.code, step - 1)
    ensures Run(g, [Generate(StartOfForCommands)]) ==
            g.(stack := below + [NumberTok(step - 4), Mark(IncDecMark), NumberTok(step)],
               code := Patch(g.code + [OpCell(JmpCode), NumberCell(start)], step - 1, |g.code| + 2))
  {
    hide Run, Patch;
    RunOne(g, Generate(StartOfForCommands));
    assert Below(g.stack) == below + [NumberTok(step)];
    assert Below(Below(g.stack)) == below;
  }

  lemma EndOfForFires(g: Gen, below: seq<Token>, addrs: seq<nat>, step: nat, code: seq<Cell>)
    requires g.status.Ok? && g.stack == below + [Mark(ForMark)] + Numbers(addrs) + [Mark(IncDecMark), NumberTok(step)]
    requires PatchAll(g.code + [OpCell(JmpCode), NumberCell(step)], addrs, 0, |g.code| + 2) == Some(code)
    ensures Run(g, [Generate(EndOfFor)]) == g.(stack := below, code := code)
  {
    hide PatchAll, PatchDown;
    RunOne(g, Generate(EndOfFor));
    assert Below(g.stack) == below + [Mark(ForMark)] + Numbers(addrs) + [Mark(IncDecMark)];
    assert Below(Below(g.stack)) == below + [Mark(ForMark)] + Numbers(addrs);
    PatchDownAll(below, ForMark, addrs, g.code + [OpCell(JmpCode), NumberCell(step)], 0, |g.code| + 2);
  }

  /** The condition of a for loop: its temporary stays taken. */
  lemma ForCond(g: Gen, c: Expr)
    requires g.status.Ok?
    ensures
      var acts := [Generate(StartOfFor)] + (ExprActions(c) + [Generate(ForIncDec)]);
      var base := |g.code|;
      if ExprOk(c, g.temps, g.ids) then
        Run(g, acts) == g.(stack := g.stack + [Mark(ForMark)] + [NumberTok(ForStepAt(c, base)), NumberTok(base)],
                           code := g.code + CondCode(c, PLACEHOLDER, g.temps, g.ids)
                               + [OpCell(JmpCode), NumberCell(PLACEHOLDER)],
                           temps := ExprTemps(c, g.temps))
      else Run(g, acts).status.Failed?
  {
    hide Run, ExprActions, ExprOk, ExprTemps, ExprToken, ExprCode, Symbol;
    var rule := Generate(ForIncDec);
    var g1 := g.(stack := g.stack + [Mark(ForMark), NumberTok(|g.code|)]);
    StartFires(g, StartOfFor, ForMark);
    RunAppend(g, [Generate(StartOfFor)], ExprActions(c) + [rule]);
    CondGenerates(g1, c, rule);
    UnresolvedToken(c, g.temps, g.ids);
    var g2 := AfterExpr(g1, c);
    var t := ExprToken(c, g.temps, g.ids);
    assert g2.stack == (g.stack + [Mark(ForMark)]) + [NumberTok(|g.code|), t];
    ForIncDecFires(g2, g.stack + [Mark(ForMark)], NumberTok(|g.code|), t);
    if ExprOk(c, g.temps, g.ids) {
      assert Run(g2, [rule]).code == g.code + CondCode(c, PLACEHOLDER, g.temps, g.ids)
          + [OpCell(JmpCode), NumberCell(PLACEHOLDER)];
    }
  }

  /** The jump over the step code is closed when the body starts. */
  lemma ForStep(g: Gen, c: Expr, step: Simple, tm: seq<bool>, ids: seq<string>, g3: Gen, below: seq<Token>, base: nat,
      pre: seq<Cell>)
    requires g3.status.Ok? && base == |pre|
    requires g3.stack == below + [NumberTok(ForStepAt(c, base)), NumberTok(base)]
    requires g3.code == pre + CondCode(c, PLACEHOLDER, tm, ids) + [OpCell(JmpCode), NumberCell(PLACEHOLDER)]
      + SimpleCode(step, ExprTemps(c, tm), ids)
    ensures Run(g3, [Generate(StartOfForCommands)]) ==
            g3.(stack := below + [NumberTok(base + ExprSize(c) + 1), Mark(IncDecMark), NumberTok(ForStepAt(c, base))],
                code := pre + ForHead(c, step, base, PLACEHOLDER, tm, ids))
  {
    hide Run, CondCode, SimpleCode, ExprTemps, ExprSize, SimpleSize;
    var cc, sc := CondCode(c, PLACEHOLDER, tm, ids), SimpleCode(step, ExprTemps(c, tm), ids);
    var back := [OpCell(JmpCode), NumberCell(base)];
    var front := pre + cc + [OpCell(JmpCode)];
    assert g3.code == front + [NumberCell(PLACEHOLDER)] + sc;
    PatchMiddle(front, PLACEHOLDER, sc, 0);
    ForCommandsFires(g3, below, ForStepAt(c, base), base);
    assert g3.code + back == front + [NumberCell(PLACEHOLDER)] + (sc + back);
    PatchMiddle(front, PLACEHOLDER, sc + back, ForBodyAt(c, step, base));
    assert front + [NumberCell(ForBodyAt(c, step, base))] + (sc + back) == pre
        + ForHead(c, step, base, PLACEHOLDER, tm, ids);
  }

  lemma ForStart(g: Gen, c: Expr, step: Simple)
    requires g.status.Ok?
    ensures
      var acts := [Generate(StartOfFor)] + (ExprActions(c) + [Generate(ForIncDec)]) + SimpleActions(step)
          + [Generate(StartOfForCommands)];
      var base := |g.code|;
      if ExprOk(c, g.temps, g.ids) && SimpleOk(step, ExprTemps(c, g.temps), g.ids) then
        Run(g, acts) == g.(stack := g.stack
            + [Mark(ForMark), NumberTok(base + ExprSize(c) + 1), Mark(IncDecMark), NumberTok(ForStepAt(c, base))],
                           code := g.code + ForHead(c, step, base, PLACEHOLDER, g.temps, g.ids),
                           temps := ExprTemps(c, g.temps),
                           ids := SimpleIds(step, g.ids))
      else Run(g, acts).status.Failed?
  {
    hide Run, ExprActions, SimpleActions, ExprOk, SimpleOk, ExprTemps, SimpleCode, SimpleIds, CondCode, ForHead,
      ExprSize, SimpleSize, ForStepAt;
    var a1 := [Generate(StartOfFor)] + (ExprActions(c) + [Generate(ForIncDec)]);
    var a3 := [Generate(StartOfForCommands)];
    RunAppend(g, a1, SimpleActions(step));
    RunAppend(g, a1 + SimpleActions(step), a3);
    ForCond(g, c);
    var g1 := Run(g, a1);
    var g2 := Run(g1, SimpleActions(step));
    if ExprOk(c, g.temps, g.ids) {
      SimpleGenerates(g1, step);
      if SimpleOk(step, g1.temps, g.ids) {
        ForStep(g, c, step, g.temps, g.ids, g2, g.stack + [Mark(ForMark)], |g.code|, g.code);
        var x := [NumberTok(|g.code| + ExprSize(c) + 1), Mark(IncDecMark), NumberTok(ForStepAt(c, |g.code|))];
        assert g.stack + [Mark(ForMark)] + x == g.stack + ([Mark(ForMark)] + x);
      } else {
        RunStops(g2, a3);
      }
    } else {
      RunStops(g1, SimpleActions(step));
      RunStops(g1, a3);
    }
  }

  lemma ForCloses(pre: seq<Cell>, c: Expr, step: Simple, b: Stmt, brk: nat, cont: nat, tm: seq<bool>, ids: seq<string>)
    ensures
      var base := |pre|;
      var stepAt, at := ForStepAt(c, base), ForBodyAt(c, step, base);
      var tc, ic := ExprTemps(c, tm), SimpleIds(step, ids);
      PatchAll(pre + ForHead(c, step, base, PLACEHOLDER, tm, ids) + StmtCode(b, at, PLACEHOLDER, stepAt, tc, ic)
               + [OpCell(JmpCode), NumberCell(stepAt)],
               StmtBreaks(b, at) + [base + ExprSize(c) + 1], 0, at + StmtSize(b) + 2)
      == Some(pre + StmtCode(For(c, step, b), base, brk, cont, tm, ids))
  {
    hide CondCode, StmtCode, SimpleCode, StmtTemps, StmtIds, StmtBreaks, StmtSize, PatchAll, ExprTemps, SimpleIds,
      ExprSize, SimpleSize;
    var base := |pre|;
    var stepAt, at := ForStepAt(c, base), ForBodyAt(c, step, base);
    var tc, ic := ExprTemps(c, tm), SimpleIds(step, ids);
    var end := at + StmtSize(b) + 2;
    var mid := [OpCell(JmpCode), NumberCell(at)] + (SimpleCode(step, tc, ids) + [OpCell(JmpCode), NumberCell(base)]);
    var back := [OpCell(JmpCode), NumberCell(stepAt)];
    CloseLoop(pre, c, mid, b, back, PLACEHOLDER, end, stepAt, tm, ids, tc, ic);
    var cw, cv := CondCode(c, PLACEHOLDER, tm, ids), CondCode(c, end, tm, ids);
    var bw, bv := StmtCode(b, at, PLACEHOLDER, stepAt, tc, ic), StmtCode(b, at, end, stepAt, tc, ic);
    assert cw + mid == ForHead(c, step, base, PLACEHOLDER, tm, ids);
    assert cv + mid == ForHead(c, step, base, end, tm, ids);
    assert pre + cw + mid + bw + back == pre + (cw + mid) + bw + back;
    assert pre + cv + mid + bv + back == pre + ((cv + mid) + bv + back);
    ForUnfolds(c, step, b, base, brk, cont, tm, ids);
  }

  lemma ForTail(g: Gen, c: Expr, step: Simple, b: Stmt, g2: Gen)
    requires g.status.Ok?
    requires
      var base := |g.code|;
      var stepAt, at := ForStepAt(c, base), ForBodyAt(c, step, base);
      var tc, ic := ExprTemps(c, g.temps), SimpleIds(step, g.ids);
      g2 == g.(stack := g.stack + [Mark(ForMark)] + Numbers(StmtBreaks(b, at) + [base + ExprSize(c) + 1])
          + [Mark(IncDecMark), NumberTok(stepAt)],
               code := g.code + ForHead(c, step, base, PLACEHOLDER, g.temps, g.ids)
                   + StmtCode(b, at, PLACEHOLDER, stepAt, tc, ic),
               temps := StmtTemps(b, tc),
               ids := StmtIds(b, ic))
    ensures Run(g2, [Generate(EndOfFor)]) == AfterStmt(g, For(c, step, b))
  {
    hide Run, StmtCode, StmtTemps, StmtIds, StmtBreaks, StmtSize, Insert, ContinueTarget, PatchAll, ExprTemps,
      SimpleIds, ForHead, ExprSize, SimpleSize;
    var base, cont := |g.code|, ContinueTarget(g.stack);
    var stepAt, at := ForStepAt(c, base), ForBodyAt(c, step, base);
    ForCloses(g.code, c, step, b, PLACEHOLDER, cont, g.temps, g.ids);
    ForUnfolds(c, step, b, base, PLACEHOLDER, cont, g.temps, g.ids);
    EndOfForFires(g2, g.stack, StmtBreaks(b, at) + [base + ExprSize(c) + 1], stepAt,
                  g.code + StmtCode(For(c, step, b), base, PLACEHOLDER, cont, g.temps, g.ids));
    InsertNothing(g.stack);
    assert Numbers([]) == [];
  }

  lemma {:induction false} ForGenerates(g: Gen, c: Expr, step: Simple, b: Stmt)
    requires Ready(g) && Safe(b, ForBody)
    ensures Generates(g, For(c, step, b))
    decreases For(c, step, b), 0
  {
    hide Run, ExprActions, SimpleActions, ExprOk, SimpleOk, ForHead, StmtCode, StmtTemps, StmtIds, StmtBreaks,
      StmtActions, StmtSize,
      Insert, HasLoop, HasFor, ContinueTarget, SpotOf, Shaped, StmtOk, ExprTemps, SimpleIds, ExprSize, SimpleSize;
    var head := [Generate(StartOfFor)] + (ExprActions(c) + [Generate(ForIncDec)]) + SimpleActions(step)
        + [Generate(StartOfForCommands)];
    var tail := [Generate(EndOfFor)];
    ForActions(c, step, b);
    RunAppend(g, head, StmtActions(b));
    RunAppend(g, head + StmtActions(b), tail);
    ForStart(g, c, step);
    ForOk(g, c, step, b);
    var g1 := Run(g, head);
    var g2 := Run(g1, StmtActions(b));
    if ExprOk(c, g.temps, g.ids) && SimpleOk(step, ExprTemps(c, g.temps), g.ids) {
      var base := |g.code|;
      var jz, stepAt := base + ExprSize(c) + 1, ForStepAt(c, base);
      ForContext(g.stack, jz, stepAt);
      StmtGenerates(g1, b);
      if Compiles(g1, b) {
        ForBreaks(g.stack, StmtBreaks(b, |g1.code|), jz, stepAt);
        ForTail(g, c, step, b, g2);
      } else {
        RunStops(g2, tail);
      }
    } else {
      RunStops(g1, StmtActions(b));
      RunStops(g1, tail);
    }
  }

  lemma ForActions(c: Expr, step: Simple, b: Stmt)
    ensures StmtActions(For(c, step, b)) ==
            [Generate(StartOfFor)] + (ExprActions(c) + [Generate(ForIncDec)]) + SimpleActions(step)
                + [Generate(StartOfForCommands)]
            + StmtActions(b) + [Generate(EndOfFor)]
  {
    hide ExprActions, SimpleActions;
    assert [Generate(StartOfFor)] + ExprActions(c) + [Generate(ForIncDec)] == [Generate(StartOfFor)]
        + (ExprActions(c) + [Generate(ForIncDec)]);
  }

  lemma ForOk(g: Gen, c: Expr, step: Simple, b: Stmt)
    ensures Compiles(g, For(c, step, b)) <==>
            ExprOk(c, g.temps, g.ids) && SimpleOk(step, ExprTemps(c, g.temps), g.ids)
            && StmtOk(b, true, true, ExprTemps(c, g.temps), SimpleIds(step, g.ids))
  {
  }

  /** The breaks of a for body land below what the loop saved. */
  lemma ForBreaks(stack: seq<Token>, breaks: seq<nat>, jz: nat, step: nat)
    ensures Insert(stack + [Mark(ForMark), NumberTok(jz), Mark(IncDecMark), NumberTok(step)], Numbers(breaks)) ==
            stack + [Mark(ForMark)] + Numbers(breaks + [jz]) + [Mark(IncDecMark), NumberTok(step)]
  {
    hide Insert;
    var above := [NumberTok(jz), Mark(IncDecMark), NumberTok(step)];
    assert stack + [Mark(ForMark), NumberTok(jz), Mark(IncDecMark), NumberTok(step)] == (stack + [Mark(ForMark)])
        + above;
    InsertAbove(stack + [Mark(ForMark)], Numbers(breaks), above);
    InsertAtMark(stack, Mark(ForMark), Numbers(breaks));
    assert Numbers(breaks) + above == Numbers(breaks + [jz]) + [Mark(IncDecMark), NumberTok(step)];
  }

  // ---------------------------------------------------------------- if

  lemma JzFires(g: Gen, below: seq<Token>, t: Token)
    requires g.status.Ok? && g.stack == below + [t] && Operand(t)
    ensures
      var g' := Run(g, [Generate(Jz)]);
      if Resolved(t) then
        g' == g.(stack := below + [NumberTok(|g.code| + 3)],
                 code := g.code + [OpCell(JzCode), NumberCell(PLACEHOLDER), Symbol(t, g.ids)],
                 temps := Release(g.temps, t))
      else g'.status.Failed?
  {
    hide Run, Symbol, Release, PatchDown, PatchAll;
    RunOne(g, Generate(Jz));
    assert Below(g.stack) == below;
  }

  lemma JmpToEndFires(g: Gen, below: seq<Token>, jz: nat)
    requires g.status.Ok? && g.stack == below + [NumberTok(jz)] && Patchable(g.code, jz - 2)
    ensures Run(g, [Generate(JmpToEndAndJzCompleted)]) ==
            g.(stack := below + [NumberTok(|g.code|)],
               code := Patch(g.code, jz - 2, |g.code| + 2) + [OpCell(JmpCode), NumberCell(PLACEHOLDER)])
  {
    hide Run, Patch, Fire, Step;
    JmpToEndIs(g);
    assert Below(g.stack) == below;
  }

  lemma JmpToEndIs(g: Gen)
    requires g.status.Ok?
    ensures Run(g, [Generate(JmpToEndAndJzCompleted)]) == GenJmpToEnd(g)
  {
    hide Run, GenJmpToEnd;
    RunOne(g, Generate(JmpToEndAndJzCompleted));
  }

  lemma EndOfIfFires(g: Gen, below: seq<Token>, addrs: seq<nat>, code: seq<Cell>)
    requires g.status.Ok? && g.stack == below + [Mark(IfMark)] + Numbers(addrs)
    requires PatchAll(g.code, addrs, 1, |g.code|) == Some(code)
    ensures Run(g, [Generate(EndOfIf)]) == g.(stack := below, code := code)
  {
    hide PatchAll, PatchDown;
    RunOne(g, Generate(EndOfIf));
    PatchDownAll(below, IfMark, addrs, g.code, 1, |g.code|);
  }

  /** A condition with its open jump. */
  lemma JzGenerates(g: Gen, c: Expr)
    requires g.status.Ok?
    ensures
      var acts := ExprActions(c) + [Generate(Jz)];
      if ExprOk(c, g.temps, g.ids) then
        Run(g, acts) == g.(stack := g.stack + [NumberTok(|g.code| + ExprSize(c) + 3)],
                           code := g.code + CondCode(c, PLACEHOLDER, g.temps, g.ids))
      else Run(g, acts).status.Failed?
  {
    hide Run, ExprActions, ExprOk, ExprTemps, ExprToken, ExprCode, Symbol, Release, ExprSize;
    CondGenerates(g, c, Generate(Jz));
    UnresolvedToken(c, g.temps, g.ids);
    var g1, t := AfterExpr(g, c), ExprToken(c, g.temps, g.ids);
    JzFires(g1, g.stack, t);
    if ExprOk(c, g.temps, g.ids) {
      OkFits(c, g.temps, g.ids);
      ReleaseExpr(c, g.temps, g.ids);
      var jz := [OpCell(JzCode), NumberCell(PLACEHOLDER), Symbol(t, g.ids)];
      assert g.code + ExprCode(c, g.temps, g.ids) + jz == g.code + CondCode(c, PLACEHOLDER, g.temps, g.ids);
    }
  }

  /** Closing the jump of a condition that is followed by `post`. */
  lemma PatchCond(pre: seq<Cell>, c: Expr, w: nat, v: nat, post: seq<Cell>, tm: seq<bool>, ids: seq<string>)
    ensures
      var code, at := pre + CondCode(c, w, tm, ids) + post, |pre| + ExprSize(c) + 1;
      Patchable(code, at) && Patch(code, at, v) == pre + CondCode(c, v, tm, ids) + post
  {
    hide ExprCode, ExprSymbol, ExprSize;
    var front := pre + ExprCode(c, tm, ids) + [OpCell(JzCode)];
    var back := [ExprSymbol(c, tm, ids)] + post;
    assert pre + CondCode(c, w, tm, ids) + post == front + [NumberCell(w)] + back;
    assert pre + CondCode(c, v, tm, ids) + post == front + [NumberCell(v)] + back;
    PatchMiddle(front, w, back, v);
  }

  /** Tokens other than markers on top of a stack show a statement nothing new. */
  lemma AddressContext(stack: seq<Token>, above: seq<Token>)
    requires Shaped(stack) && above != []
    requires forall i :: 0 <= i < |above| ==> above[i].NumberTok? || above[i] == Mark(IfMark)
    ensures
      var s := stack + above;
      && Shaped(s) && HasLoop(s) == HasLoop(stack) && HasFor(s) == HasFor(stack)
      && ContinueTarget(s) == ContinueTarget(stack) && SpotOf(s) == Nested
  {
    hide HasLoop, HasFor, ContinueTarget, SpotOf, Insert;
    PushContext(stack, above);
    InsertAbove(stack, [], above);
  }

  function AfterBranches(g: Gen, below: seq<Token>, jz: nat, r: Branches): Gen
    requires Patchable(g.code, jz - 2)
  {
    var base := |g.code|;
    g.(stack := Insert(below, Numbers(BranchesBreaks(r, base))) + Numbers(BranchesJumps(r, base)),
       code := Patch(g.code, jz - 2, base + 2)
               + BranchesCode(r, base, PLACEHOLDER, PLACEHOLDER, ContinueTarget(below), g.temps, g.ids),
       temps := BranchesTemps(r, g.temps),
       ids := BranchesIds(r, g.ids))
  }

  /** The later branches of an `if` whose last condition jump, saved as `jz`, is still open. */
  lemma {:induction false} BranchesGenerate(g: Gen, below: seq<Token>, jz: nat, r: Branches)
    requires g.status.Ok? && Shaped(below) && g.stack == below + [NumberTok(jz)] && Patchable(g.code, jz - 2)
    requires SafeBranches(r)
    ensures if BranchesOk(r, HasLoop(below), HasFor(below), g.temps, g.ids) then
              Run(g, BranchesActions(r)) == AfterBranches(g, below, jz, r)
            else Run(g, BranchesActions(r)).status.Failed?
    decreases r, 1
  {
    match r
    case Else(b) =>
      ElseGenerates(g, below, jz, b);
    case ElsIf(c, b, rest) =>
      ElsIfGenerates(g, below, jz, c, b, rest);
  }

  lemma {:induction false} ElseGenerates(g: Gen, below: seq<Token>, jz: nat, b: Stmt)
    requires g.status.Ok? && Shaped(below) && g.stack == below + [NumberTok(jz)] && Patchable(g.code, jz - 2)
    requires Safe(b, Nested)
    ensures
      var r := Else(b);
      if BranchesOk(r, HasLoop(below), HasFor(below), g.temps, g.ids) then
        Run(g, BranchesActions(r)) == AfterBranches(g, below, jz, r)
      else Run(g, BranchesActions(r)).status.Failed?
    decreases Else(b), 0
  {
    hide Run, StmtCode, StmtTemps, StmtIds, StmtBreaks, StmtActions, StmtSize, StmtOk, Insert, HasLoop, HasFor,
      ContinueTarget, SpotOf, Shaped,
      BranchesCode, BranchesTemps, BranchesIds, BranchesBreaks;
    var base := |g.code|;
    var g1 := Run(g, [Generate(JmpToEndAndJzCompleted)]);
    RunAppend(g, [Generate(JmpToEndAndJzCompleted)], StmtActions(b));
    JmpToEndFires(g, below, jz);
    AddressContext(below, [NumberTok(base)]);
    StmtGenerates(g1, b);
    if Compiles(g1, b) {
      ElseUnfolds(b, base, PLACEHOLDER, PLACEHOLDER, ContinueTarget(below), g.temps, g.ids);
      InsertAbove(below, Numbers(StmtBreaks(b, base + 2)), [NumberTok(base)]);
      assert Numbers([base]) == [NumberTok(base)];
      var p, j := Patch(g.code, jz - 2, base + 2), [OpCell(JmpCode), NumberCell(PLACEHOLDER)];
      var x := StmtCode(b, base + 2, PLACEHOLDER, ContinueTarget(below), g.temps, g.ids);
      assert p + j + x == p + (j + x);
    }
  }

  /** An `elsif` up to the point where the later branches start. */
  lemma {:induction false} ElsIfHead(g: Gen, below: seq<Token>, jz: nat, c: Expr, b: Stmt)
    requires g.status.Ok? && Shaped(below) && g.stack == below + [NumberTok(jz)] && Patchable(g.code, jz - 2)
    requires Safe(b, Nested)
    ensures
      var acts := [Generate(JmpToEndAndJzCompleted)] + (ExprActions(c) + [Generate(Jz)]) + StmtActions(b);
      var base, cont := |g.code|, ContinueTarget(below);
      var start := base + 2 + ExprSize(c) + 3;
      if ExprOk(c, g.temps, g.ids) && StmtOk(b, HasLoop(below), HasFor(below), g.temps, g.ids) then
        Run(g, acts) ==
          g.(stack := Insert(below, Numbers(StmtBreaks(b, start))) + [NumberTok(base)] + [NumberTok(start)],
             code := Patch(g.code, jz - 2, base + 2) + [OpCell(JmpCode), NumberCell(PLACEHOLDER)]
                     + CondCode(c, PLACEHOLDER, g.temps, g.ids)
                     + StmtCode(b, start, PLACEHOLDER, cont, g.temps, g.ids),
             temps := StmtTemps(b, g.temps),
             ids := StmtIds(b, g.ids))
      else Run(g, acts).status.Failed?
    decreases b, 2
  {
    hide Run, ExprActions, ExprOk, CondCode, ExprSize, StmtCode, StmtTemps, StmtIds, StmtBreaks, StmtActions, StmtSize,
      StmtOk,
      Insert, HasLoop, HasFor, ContinueTarget, SpotOf, Shaped;
    var a1, a2 := [Generate(JmpToEndAndJzCompleted)], ExprActions(c) + [Generate(Jz)];
    var base := |g.code|;
    var g1 := Run(g, a1);
    var g2 := Run(g1, a2);
    var g3 := Run(g2, StmtActions(b));
    RunAppend(g, a1, a2);
    RunAppend(g, a1 + a2, StmtActions(b));
    JmpToEndFires(g, below, jz);
    JzGenerates(g1, c);
    if ExprOk(c, g.temps, g.ids) {
      var start := base + 2 + ExprSize(c) + 3;
      var above := [NumberTok(base), NumberTok(start)];
      assert g2.stack == below + above;
      AddressContext(below, above);
      StmtGenerates(g2, b);
      if Compiles(g2, b) {
        InsertAbove(below, Numbers(StmtBreaks(b, start)), above);
        var ins := Insert(below, Numbers(StmtBreaks(b, start)));
        assert ins + above == ins + [NumberTok(base)] + [NumberTok(start)];
      }
    } else {
      RunStops(g2, StmtActions(b));
    }
  }

  lemma {:induction false} ElsIfGenerates(g: Gen, below: seq<Token>, jz: nat, c: Expr, b: Stmt, rest: Branches)
    requires g.status.Ok? && Shaped(below) && g.stack == below + [NumberTok(jz)] && Patchable(g.code, jz - 2)
    requires Safe(b, Nested) && SafeBranches(rest)
    ensures
      var r := ElsIf(c, b, rest);
      if BranchesOk(r, HasLoop(below), HasFor(below), g.temps, g.ids) then
        Run(g, BranchesActions(r)) == AfterBranches(g, below, jz, r)
      else Run(g, BranchesActions(r)).status.Failed?
    decreases ElsIf(c, b, rest), 0
  {
    hide Run, ExprActions, ExprOk, CondCode, ExprSize, StmtCode, StmtTemps, StmtIds, StmtBreaks, StmtActions, StmtSize,
      StmtOk,
      Insert, HasLoop, HasFor, ContinueTarget, SpotOf, Shaped, BranchesActions, BranchesOk, AfterBranches;
    var r := ElsIf(c, b, rest);
    var head := [Generate(JmpToEndAndJzCompleted)] + (ExprActions(c) + [Generate(Jz)]) + StmtActions(b);
    ElsIfActions(c, b, rest);
    RunAppend(g, head, BranchesActions(rest));
    ElsIfHead(g, below, jz, c, b);
    OkElsIf(c, b, rest, HasLoop(below), HasFor(below), g.temps, g.ids);
    var g1 := Run(g, head);
    if ExprOk(c, g.temps, g.ids) && StmtOk(b, HasLoop(below), HasFor(below), g.temps, g.ids) {
      var base := |g.code|;
      var start := base + 2 + ExprSize(c) + 3;
      var breaks := StmtBreaks(b, start);
      var below1 := Insert(below, Numbers(breaks)) + [NumberTok(base)];
      InsertIsInvisible(below, breaks);
      AddressContext(Insert(below, Numbers(breaks)), [NumberTok(base)]);
      var pre := Patch(g.code, jz - 2, base + 2) + [OpCell(JmpCode), NumberCell(PLACEHOLDER)];
      var body := StmtCode(b, start, PLACEHOLDER, ContinueTarget(below), g.temps, g.ids);
      PatchCond(pre, c, PLACEHOLDER, |g1.code| + 2, body, g.temps, g.ids);
      BranchesGenerate(g1, below1, start, rest);
      if BranchesOk(rest, HasLoop(below1), HasFor(below1), g1.temps, g1.ids) {
        ElsIfJoins(g, below, jz, c, b, rest, g1, below1);
      }
    } else {
      RunStops(g1, BranchesActions(rest));
    }
  }

  lemma ElsIfActions(c: Expr, b: Stmt, rest: Branches)
    ensures BranchesActions(ElsIf(c, b, rest)) ==
            [Generate(JmpToEndAndJzCompleted)] + (ExprActions(c) + [Generate(Jz)]) + StmtActions(b)
                + BranchesActions(rest)
  {
    hide ExprActions, StmtActions;
    var j := [Generate(JmpToEndAndJzCompleted)];
    assert j + ExprActions(c) + [Generate(Jz)] == j + (ExprActions(c) + [Generate(Jz)]);
  }

  /** The state after the later branches is the state after the whole `elsif`. */
  lemma ElsIfJoins(g: Gen, below: seq<Token>, jz: nat, c: Expr, b: Stmt, rest: Branches, g1: Gen, below1: seq<Token>)
    requires Patchable(g.code, jz - 2) && Shaped(below)
    requires
      var base, cont := |g.code|, ContinueTarget(below);
      var start := base + 2 + ExprSize(c) + 3;
      && below1 == Insert(below, Numbers(StmtBreaks(b, start))) + [NumberTok(base)]
      && ContinueTarget(below1) == cont
      && g1 == g.(stack := below1 + [NumberTok(start)],
                  code := Patch(g.code, jz - 2, base + 2) + [OpCell(JmpCode), NumberCell(PLACEHOLDER)]
                          + CondCode(c, PLACEHOLDER, g.temps, g.ids)
                          + StmtCode(b, start, PLACEHOLDER, cont, g.temps, g.ids),
                  temps := StmtTemps(b, g.temps),
                  ids := StmtIds(b, g.ids))
      && Patchable(g1.code, start - 2)
    ensures AfterBranches(g1, below1, |g.code| + 2 + ExprSize(c) + 3, rest) ==
      AfterBranches(g, below, jz, ElsIf(c, b, rest))
  {
    hide CondCode, ExprSize, StmtCode, StmtTemps, StmtIds, StmtBreaks, StmtSize, Insert, ContinueTarget, Shaped,
      BranchesCode, BranchesTemps, BranchesIds, BranchesBreaks, BranchesSize, BranchesJumps, Patch;
    var base, cont := |g.code|, ContinueTarget(below);
    var start := base + 2 + ExprSize(c) + 3;
    var next := start + StmtSize(b);
    ElsIfUnfolds(c, b, rest, base, PLACEHOLDER, PLACEHOLDER, cont, g.temps, g.ids);
    var p, j := Patch(g.code, jz - 2, base + 2), [OpCell(JmpCode), NumberCell(PLACEHOLDER)];
    var body := StmtCode(b, start, PLACEHOLDER, cont, g.temps, g.ids);
    PatchCond(p + j, c, PLACEHOLDER, next + 2, body, g.temps, g.ids);
    var cv := CondCode(c, next + 2, g.temps, g.ids);
    var x := BranchesCode(rest, next, PLACEHOLDER, PLACEHOLDER, cont, g1.temps, g1.ids);
    assert p + j + cv + body + x == p + (j + cv + (body + x));
    ElsIfStacks(below, c, b, rest, base);
  }

  /** The stacks of `ElsIfJoins`. */
  lemma ElsIfStacks(below: seq<Token>, c: Expr, b: Stmt, rest: Branches, base: nat)
    ensures
      var start := base + 2 + ExprSize(c) + 3;
      var next := start + StmtSize(b);
      Insert(Insert(below, Numbers(StmtBreaks(b, start))) + [NumberTok(base)], Numbers(BranchesBreaks(rest, next)))
        + Numbers(BranchesJumps(rest, next))
      == Insert(below, Numbers(BranchesBreaks(rest, next) + StmtBreaks(b, start)))
          + Numbers(BranchesJumps(ElsIf(c, b, rest), base))
  {
    hide ExprSize, StmtBreaks, StmtSize, Insert, BranchesBreaks;
    var start := base + 2 + ExprSize(c) + 3;
    var next := start + StmtSize(b);
    var b1, b2, js := StmtBreaks(b, start), BranchesBreaks(rest, next), BranchesJumps(rest, next);
    InsertAbove(Insert(below, Numbers(b1)), Numbers(b2), [NumberTok(base)]);
    InsertTwice(below, Numbers(b1), Numbers(b2));
    assert Numbers(b2) + Numbers(b1) == Numbers(b2 + b1);
    assert BranchesJumps(ElsIf(c, b, rest), base) == [base] + js;
    assert [NumberTok(base)] + Numbers(js) == Numbers([base] + js);
    var ins := Insert(below, Numbers(b2 + b1));
    assert ins + [NumberTok(base)] + Numbers(js) == ins + ([NumberTok(base)] + Numbers(js));
  }

  // the first branch

  lemma {:induction false} IfHead(g: Gen, c: Expr, t: Stmt)
    requires Ready(g) && Safe(t, Nested)
    ensures
      var acts := [Generate(StartOfIf)] + (ExprActions(c) + [Generate(Jz)]) + StmtActions(t);
      var start := |g.code| + ExprSize(c) + 3;
      if ExprOk(c, g.temps, g.ids) && Compiles(g, t) then
        Run(g, acts) ==
          g.(stack := Insert(g.stack, Numbers(StmtBreaks(t, start))) + [Mark(IfMark)] + [NumberTok(start)],
             code := g.code + CondCode(c, PLACEHOLDER, g.temps, g.ids)
                     + StmtCode(t, start, PLACEHOLDER, ContinueTarget(g.stack), g.temps, g.ids),
             temps := StmtTemps(t, g.temps),
             ids := StmtIds(t, g.ids))
      else Run(g, acts).status.Failed?
    decreases t, 2
  {
    hide Run, ExprActions, ExprOk, CondCode, ExprSize, StmtCode, StmtTemps, StmtIds, StmtBreaks, StmtActions, StmtSize,
      StmtOk,
      Insert, HasLoop, HasFor, ContinueTarget, SpotOf, Shaped;
    var a1, a2 := [Generate(StartOfIf)], ExprActions(c) + [Generate(Jz)];
    var g1 := Run(g, a1);
    var g2 := Run(g1, a2);
    RunAppend(g, a1, a2);
    RunAppend(g, a1 + a2, StmtActions(t));
    IfStarts(g);
    JzGenerates(g1, c);
    if ExprOk(c, g.temps, g.ids) {
      var start := |g.code| + ExprSize(c) + 3;
      var above := [Mark(IfMark), NumberTok(start)];
      assert g2.stack == g.stack + above;
      AddressContext(g.stack, above);
      StmtGenerates(g2, t);
      if Compiles(g2, t) {
        InsertAbove(g.stack, Numbers(StmtBreaks(t, start)), above);
        var ins := Insert(g.stack, Numbers(StmtBreaks(t, start)));
        assert ins + above == ins + [Mark(IfMark)] + [NumberTok(start)];
      }
    } else {
      RunStops(g2, StmtActions(t));
    }
  }

  lemma IfStarts(g: Gen)
    requires g.status.Ok?
    ensures Run(g, [Generate(StartOfIf)]) == g.(stack := g.stack + [Mark(IfMark)])
  {
    hide Run;
    RunOne(g, Generate(StartOfIf));
  }

  lemma IfCloses(pre: seq<Cell>, c: Expr, t: Stmt, r: Branches, cont: nat, tm: seq<bool>, ids: seq<string>)
    ensures
      var start := |pre| + ExprSize(c) + 3;
      var next := start + StmtSize(t);
      var tt, it := StmtTemps(t, tm), StmtIds(t, ids);
      PatchAll(pre + CondCode(c, next + 2, tm, ids) + StmtCode(t, start, PLACEHOLDER, cont, tm, ids)
               + BranchesCode(r, next, PLACEHOLDER, PLACEHOLDER, cont, tt, it),
               BranchesJumps(r, next), 1, next + BranchesSize(r))
      == Some(pre + StmtCode(If(c, t, r), |pre|, PLACEHOLDER, cont, tm, ids))
  {
    hide CondCode, StmtCode, StmtTemps, StmtIds, StmtBreaks, StmtSize, BranchesCode, BranchesSize, PatchAll, ExprSize;
    var start := |pre| + ExprSize(c) + 3;
    var next := start + StmtSize(t);
    var end := next + BranchesSize(r);
    var tt, it := StmtTemps(t, tm), StmtIds(t, ids);
    var cc, body := CondCode(c, next + 2, tm, ids), StmtCode(t, start, PLACEHOLDER, cont, tm, ids);
    var rw, rv := BranchesCode(r, next, PLACEHOLDER, PLACEHOLDER, cont, tt, it),
        BranchesCode(r, next, end, PLACEHOLDER, cont, tt, it);
    CloseEnds(r, pre + cc + body, [], PLACEHOLDER, end, PLACEHOLDER, cont, tt, it);
    assert pre + cc + body + rw + [] == pre + cc + body + rw;
    assert pre + cc + body + rv + [] == pre + (cc + (body + rv));
    IfUnfolds(c, t, r, |pre|, PLACEHOLDER, cont, tm, ids);
  }

  lemma IfTail(g: Gen, c: Expr, t: Stmt, r: Branches, g2: Gen)
    requires g.status.Ok?
    requires
      var start := |g.code| + ExprSize(c) + 3;
      var next, cont := start + StmtSize(t), ContinueTarget(g.stack);
      var tt, it := StmtTemps(t, g.temps), StmtIds(t, g.ids);
      g2 == g.(stack := Insert(g.stack, Numbers(BranchesBreaks(r, next) + StmtBreaks(t, start))) + [Mark(IfMark)]
          + Numbers(BranchesJumps(r, next)),
               code := g.code + CondCode(c, next + 2, g.temps, g.ids)
                   + StmtCode(t, start, PLACEHOLDER, cont, g.temps, g.ids)
                       + BranchesCode(r, next, PLACEHOLDER, PLACEHOLDER, cont, tt, it),
               temps := BranchesTemps(r, tt),
               ids := BranchesIds(r, it))
    ensures Run(g2, [Generate(EndOfIf)]) == AfterStmt(g, If(c, t, r))
  {
    hide Run, CondCode, StmtCode, StmtTemps, StmtIds, StmtBreaks, StmtSize, Insert, ContinueTarget, PatchAll, ExprSize,
      BranchesCode, BranchesTemps, BranchesIds, BranchesBreaks, BranchesSize, BranchesJumps;
    var start := |g.code| + ExprSize(c) + 3;
    var next, cont := start + StmtSize(t), ContinueTarget(g.stack);
    IfCloses(g.code, c, t, r, cont, g.temps, g.ids);
    IfUnfolds(c, t, r, |g.code|, PLACEHOLDER, cont, g.temps, g.ids);
    EndOfIfFires(g2, Insert(g.stack, Numbers(BranchesBreaks(r, next) + StmtBreaks(t, start))), BranchesJumps(r, next),
                 g.code + StmtCode(If(c, t, r), |g.code|, PLACEHOLDER, cont, g.temps, g.ids));
  }

  lemma IfActions(c: Expr, t: Stmt, r: Branches)
    ensures StmtActions(If(c, t, r)) ==
            [Generate(StartOfIf)] + (ExprActions(c) + [Generate(Jz)]) + StmtActions(t) + BranchesActions(r)
                + [Generate(EndOfIf)]
  {
    hide ExprActions, BranchesActions;
    assert [Generate(StartOfIf)] + ExprActions(c) + [Generate(Jz)] == [Generate(StartOfIf)]
        + (ExprActions(c) + [Generate(Jz)]);
  }

  lemma IfOk(g: Gen, c: Expr, t: Stmt, r: Branches)
    ensures Compiles(g, If(c, t, r)) <==>
            ExprOk(c, g.temps, g.ids) && Compiles(g, t)
            && BranchesOk(r, HasLoop(g.stack), HasFor(g.stack), StmtTemps(t, g.temps), StmtIds(t, g.ids))
  {
  }

  lemma {:induction false} IfGenerates(g: Gen, c: Expr, t: Stmt, r: Branches)
    requires Ready(g) && Safe(t, Nested) && SafeBranches(r)
    ensures Generates(g, If(c, t, r))
    decreases If(c, t, r), 0
  {
    hide Run, ExprActions, ExprOk, CondCode, ExprSize, StmtCode, StmtTemps, StmtIds, StmtBreaks, StmtActions, StmtSize,
      StmtOk,
      Insert, HasLoop, HasFor, ContinueTarget, SpotOf, Shaped, BranchesActions, BranchesOk, BranchesCode,
          BranchesTemps, BranchesIds, BranchesBreaks, BranchesJumps;
    var head := [Generate(StartOfIf)] + (ExprActions(c) + [Generate(Jz)]) + StmtActions(t);
    var tail := [Generate(EndOfIf)];
    IfActions(c, t, r);
    RunAppend(g, head, BranchesActions(r));
    RunAppend(g, head + BranchesActions(r), tail);
    IfHead(g, c, t);
    IfOk(g, c, t, r);
    var g1 := Run(g, head);
    var g2 := Run(g1, BranchesActions(r));
    if ExprOk(c, g.temps, g.ids) && Compiles(g, t) {
      var start := |g.code| + ExprSize(c) + 3;
      var breaks := StmtBreaks(t, start);
      var ins := Insert(g.stack, Numbers(breaks));
      InsertIsInvisible(g.stack, breaks);
      AddressContext(ins, [Mark(IfMark)]);
      var body := StmtCode(t, start, PLACEHOLDER, ContinueTarget(g.stack), g.temps, g.ids);
      PatchCond(g.code, c, PLACEHOLDER, |g1.code| + 2, body, g.temps, g.ids);
      BranchesGenerate(g1, ins + [Mark(IfMark)], start, r);
      if BranchesOk(r, HasLoop(g.stack), HasFor(g.stack), g1.temps, g1.ids) {
        var more := BranchesBreaks(r, |g1.code|);
        InsertAbove(ins, Numbers(more), [Mark(IfMark)]);
        InsertTwice(g.stack, Numbers(breaks), Numbers(more));
        assert Numbers(more) + Numbers(breaks) == Numbers(more + breaks);
        IfTail(g, c, t, r, g2);
      } else {
        RunStops(g2, tail);
      }
    } else {
      RunStops(g1, BranchesActions(r));
      RunStops(g1, tail);
    }
  }

  // ---------------------------------------------------------------- printf

  /** Every argument compiles, or is a variable whose check is left to the call. */
  predicate ArgsRun(args: seq<Expr>, tm: seq<bool>, ids: seq<string>)
    decreases |args|
  {
    args == [] || ((ExprOk(args[0], tm, ids) || args[0].Read?) && ArgsRun(args[1..], ExprTemps(args[0], tm), ids))
  }

  lemma {:induction false} ArgsOkIff(args: seq<Expr>, tm: seq<bool>, ids: seq<string>)
    ensures ArgsOk(args, tm, ids) <==>
            ArgsRun(args, tm, ids) && (forall t :: t in ArgsTokens(args, tm, ids) ==> Resolved(t))
    decreases |args|
  {
    if args != [] {
      hide ExprOk, ExprTemps, ExprToken;
      ArgsOkIff(args[1..], ExprTemps(args[0], tm), ids);
      UnresolvedToken(args[0], tm, ids);
      var t, ts := ExprToken(args[0], tm, ids), ArgsTokens(args[1..], ExprTemps(args[0], tm), ids);
      assert ArgsTokens(args, tm, ids) == [t] + ts;
      assert forall x :: x in [t] + ts <==> x == t || x in ts;
    }
  }

  function AfterArgs(g: Gen, args: seq<Expr>): Gen {
    g.(stack := g.stack + ArgsTokens(args, g.temps, g.ids),
       code := g.code + ArgsCode(args, g.temps, g.ids),
       temps := ArgsTemps(args, g.temps))
  }

  lemma {:induction false} ArgsGenerate(g: Gen, args: seq<Expr>)
    requires g.status.Ok?
    ensures if ArgsRun(args, g.temps, g.ids) then Run(g, ArgsActions(args)) == AfterArgs(g, args)
            else Run(g, ArgsActions(args)).status.Failed?
    decreases |args|
  {
    hide Run, ExprActions, ExprOk, ExprTemps, ExprToken, ExprCode;
    if args == [] {
      RunNothing(g);
      assert g.stack + [] == g.stack && g.code + [] == g.code;
    } else {
      var e, rest := args[0], args[1..];
      var g1 := Run(g, ExprActions(e));
      RunAppend(g, ExprActions(e), ArgsActions(rest));
      ExprGenerates(g, e);
      if ExprOk(e, g.temps, g.ids) || e.Read? {
        ArgsGenerate(g1, rest);
        var t, ts := ExprToken(e, g.temps, g.ids), ArgsTokens(rest, g1.temps, g.ids);
        assert g.stack + [t] + ts == g.stack + ([t] + ts);
        var x, y := ExprCode(e, g.temps, g.ids), ArgsCode(rest, g1.temps, g.ids);
        assert g.code + x + y == g.code + (x + y);
      } else {
        RunStops(g1, ArgsActions(rest));
      }
    }
  }

  lemma RunNothing(g: Gen)
    ensures Run(g, []) == g
  {
  }

  lemma {:induction false} AboveVargAppend(below: seq<Token>, above: seq<Token>)
    requires forall t :: t in above ==> Operand(t)
    ensures HasVarg(below + [Mark(VargMark)] + above)
    ensures AboveVarg(below + [Mark(VargMark)] + above) == above
  {
    var s := below + [Mark(VargMark)] + above;
    if above == [] {
      assert Top(s) == Mark(VargMark);
    } else {
      assert Top(s) == Top(above) && Top(above) in above;
      assert Below(s) == below + [Mark(VargMark)] + Below(above);
      AboveVargAppend(below, Below(above));
    }
  }

  lemma {:induction false} ReleaseAllFront(tm: seq<bool>, t: Token, ts: seq<Token>)
    ensures ReleaseAll(tm, [t] + ts) == Release(ReleaseAll(tm, ts), t)
    decreases |ts|
  {
    var all := [t] + ts;
    if ts == [] {
      assert Top(all) == t && Below(all) == [];
    } else {
      assert Top(all) == Top(ts) && Below(all) == [t] + Below(ts);
      ReleaseAllFront(Release(tm, Top(ts)), t, Below(ts));
    }
  }

  /** Freeing all arguments gives back the map there was before the first. */
  lemma {:induction false} ReleaseArgs(args: seq<Expr>, tm: seq<bool>, ids: seq<string>)
    requires ArgsOk(args, tm, ids)
    ensures ReleaseAll(ArgsTemps(args, tm), ArgsTokens(args, tm, ids)) == tm
    decreases |args|
  {
    if args != [] {
      hide ExprOk, ExprTemps, ExprToken, Release, ReleaseAll;
      var e := args[0];
      var te := ExprTemps(e, tm);
      ReleaseArgs(args[1..], te, ids);
      ReleaseAllFront(ArgsTemps(args, tm), ExprToken(e, tm, ids), ArgsTokens(args[1..], te, ids));
      OkFits(e, tm, ids);
      ReleaseExpr(e, tm, ids);
    }
  }

  lemma PrintfFires(g: Gen, below: seq<Token>, f: string, args: seq<Token>)
    requires g.status.Ok? && g.stack == below + [StringTok(f), Mark(VargMark)] + args
    requires forall t :: t in args ==> Operand(t)
    ensures
      var g' := Run(g, [Generate(PrintfRule)]);
      if (forall t :: t in args ==> Resolved(t)) && Specifiers(f) == |args| then
        g' == g.(stack := below,
                 code := g.code + [OpCell(PrintfCode)] + TextCells(f) + [CountCell(|args|)] + SymbolsOf(args, g.ids),
                 temps := ReleaseAll(g.temps, args))
      else g'.status.Failed?
  {
    hide Run, Specifiers, TextCells, SymbolsOf, ReleaseAll, HasVarg, AboveVarg, Operand, Resolved;
    PrintfIs(g);
    assert g.stack == (below + [StringTok(f)]) + [Mark(VargMark)] + args;
    AboveVargAppend(below + [StringTok(f)], args);
    assert g.stack[..|below|] == below;
  }

  lemma PrintfIs(g: Gen)
    requires g.status.Ok?
    ensures Run(g, [Generate(PrintfRule)]) == GenPrintf(g)
  {
    hide Run, GenPrintf;
    RunOne(g, Generate(PrintfRule));
  }

  lemma PrintfUnfolds(g: Gen, f: string, args: seq<Expr>)
    ensures
      var s := Printf(f, args);
      && StmtActions(s) == [PushString(f), Generate(VargStart)] + ArgsActions(args) + [Generate(PrintfRule)]
      && StmtCode(s, |g.code|, PLACEHOLDER, ContinueTarget(g.stack), g.temps, g.ids) ==
          PrintfCells(f, args, g.temps, g.ids)
      && StmtBreaks(s, |g.code|) == []
      && StmtTemps(s, g.temps) == g.temps && StmtIds(s, g.ids) == g.ids
      && Compiles(g, s) == (ArgsOk(args, g.temps, g.ids) && Specifiers(f) == |args|)
  {
    hide ArgsActions, ArgsOk, PrintfCells, Specifiers;
  }

  lemma PrintfStarts(g: Gen, f: string)
    requires g.status.Ok?
    ensures Run(g, [PushString(f), Generate(VargStart)]) == g.(stack := g.stack + [StringTok(f), Mark(VargMark)])
  {
    hide Run;
    var acts := [PushString(f), Generate(VargStart)];
    assert acts == [PushString(f)] + [Generate(VargStart)];
    RunAppend(g, [PushString(f)], [Generate(VargStart)]);
    RunOne(g, PushString(f));
    var g1 := g.(stack := g.stack + [StringTok(f)]);
    RunOne(g1, Generate(VargStart));
    assert g.stack + [StringTok(f)] + [Mark(VargMark)] == g.stack + [StringTok(f), Mark(VargMark)];
  }

  lemma PrintfGenerates(g: Gen, f: string, args: seq<Expr>)
    requires Ready(g)
    ensures Generates(g, Printf(f, args))
  {
    hide Run, ArgsActions, ArgsOk, ArgsRun, ArgsCode, ArgsTemps, ArgsTokens, Specifiers, TextCells, SymbolsOf,
      ReleaseAll,
      StmtActions, StmtCode, StmtBreaks, StmtTemps, StmtIds, StmtOk, Insert;
    var start, rule := [PushString(f), Generate(VargStart)], [Generate(PrintfRule)];
    PrintfUnfolds(g, f, args);
    RunAppend(g, start, ArgsActions(args));
    RunAppend(g, start + ArgsActions(args), rule);
    PrintfStarts(g, f);
    var g1 := Run(g, start);
    var g2 := Run(g1, ArgsActions(args));
    ArgsGenerate(g1, args);
    ArgsOkIff(args, g.temps, g.ids);
    if ArgsRun(args, g.temps, g.ids) {
      var ts := ArgsTokens(args, g.temps, g.ids);
      PrintfFires(g2, g.stack, f, ts);
      if Compiles(g, Printf(f, args)) {
        ReleaseArgs(args, g.temps, g.ids);
        InsertNothing(g.stack);
        assert Numbers([]) == [];
        var x, y := ArgsCode(args, g.temps, g.ids), [OpCell(PrintfCode)];
        var z, w := TextCells(f) , [CountCell(|ts|)];
        assert g.code + x + y + z + w + SymbolsOf(ts, g.ids) == g.code + (x + (y + z + w + SymbolsOf(ts, g.ids)));
      }
    } else {
      RunStops(g2, rule);
    }
  }
}
