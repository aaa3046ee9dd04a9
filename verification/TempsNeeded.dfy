/**
 How many temporaries a script needs: an exact count, and what follows from it
 for the 128 slots there are.
 */
module TempsNeeded {
  import opened Words
  import opened Script
  import opened Codegen
  import opened Layout
  import opened Stacks
  import opened Compilation
  import opened Misuse
  import opened Temps

  function NoTemps(): seq<bool> {
    seq(MAX_TEMP_COUNT, _ => false)
  }

  // ---------------------------------------------------------------- argument lists

  function ArgsHeld(args: seq<Expr>): nat {
    if args == [] then 0 else Held(args[0]) + ArgsHeld(args[1..])
  }

  function ArgsPeak(args: seq<Expr>): nat {
    if args == [] then 0 else Max(Peak(args[0]), Held(args[0]) + ArgsPeak(args[1..]))
  }

  predicate ArgsKnown(args: seq<Expr>, ids: seq<string>) {
    args == [] || (ExprKnown(args[0], ids) && ArgsKnown(args[1..], ids))
  }

  lemma {:induction false} ArgsOkCount(args: seq<Expr>, tm: seq<bool>, ids: seq<string>)
    ensures ArgsOk(args, tm, ids) <==> ArgsKnown(args, ids) && Taken(tm) + ArgsPeak(args) <= |tm|
    decreases |args|
  {
    if args != [] {
      hide ExprTemps, ExprFits, ExprKnown, Peak, Taken;
      ExprFitsIff(args[0], tm);
      if ExprFits(args[0], tm) {
        ExprTaken(args[0], tm);
        ArgsOkCount(args[1..], ExprTemps(args[0], tm), ids);
      }
    }
  }

  // ---------------------------------------------------------------- statements

  function SimplePeak(a: Simple): nat {
    if a.Assign? then Peak(a.value) else 0
  }

  predicate SimpleKnown(a: Simple, ids: seq<string>) {
    if a.Assign? then ExprKnown(a.value, ids) else Known(a.place, ids)
  }

  /**
   The slots a statement keeps for good: one for each compound `for` condition and each compound
   argument of a print-like call.
   */
  function Leak(s: Stmt): nat {
    match s
    case Seq(a, b) => Leak(a) + Leak(b)
    case If(_, t, r) => Leak(t) + BranchesLeak(r)
    case While(_, b) => Leak(b)
    case DoWhile(b, _) => Leak(b)
    case For(c, _, b) => Held(c) + Leak(b)
    case Call(_, e) => Held(e)
    case _ => 0
  }

  function BranchesLeak(r: Branches): nat {
    match r
    case ElsIf(_, b, rest) => Leak(b) + BranchesLeak(rest)
    case Else(b) => Leak(b)
  }

  /** The most slots a statement has taken at one time. */
  function StmtPeak(s: Stmt): nat {
    match s
    case Seq(a, b) => Max(StmtPeak(a), Leak(a) + StmtPeak(b))
    case Do(a) => SimplePeak(a)
    case If(c, t, r) => Max(Peak(c), Max(StmtPeak(t), Leak(t) + BranchesPeak(r)))
    case While(c, b) => Max(Peak(c), StmtPeak(b))
    case DoWhile(b, c) => Max(StmtPeak(b), Leak(b) + Peak(c))
    case For(c, step, b) => Max(Peak(c), Held(c) + Max(SimplePeak(step), StmtPeak(b)))
    case Call(_, e) => Peak(e)
    case Printf(_, args) => ArgsPeak(args)
    case _ => 0
  }

  function BranchesPeak(r: Branches): nat {
    match r
    case ElsIf(c, b, rest) => Max(Peak(c), Max(StmtPeak(b), Leak(b) + BranchesPeak(rest)))
    case Else(b) => StmtPeak(b)
  }

  /** The conditions of `StmtOk` that do not speak of temporaries. */
  predicate StmtKnown(s: Stmt, inLoop: bool, inFor: bool, ids: seq<string>) {
    match s
    case Skip => true
    case Seq(a, b) => StmtKnown(a, inLoop, inFor, ids) && StmtKnown(b, inLoop, inFor, StmtIds(a, ids))
    case Do(a) => SimpleKnown(a, ids)
    case If(c, t, r) => ExprKnown(c, ids) && StmtKnown(t, inLoop, inFor, ids) &&
        BranchesKnown(r, inLoop, inFor, StmtIds(t, ids))
    case While(c, b) => ExprKnown(c, ids) && StmtKnown(b, true, inFor, ids)
    case DoWhile(b, c) => StmtKnown(b, true, inFor, ids) && ExprKnown(c, StmtIds(b, ids))
    case For(c, step, b) => ExprKnown(c, ids) && SimpleKnown(step, ids) &&
        StmtKnown(b, true, true, SimpleIds(step, ids))
    case Break => inLoop
    case Continue => inFor
    case Call(_, e) => ExprKnown(e, ids)
    case Printf(f, args) => ArgsKnown(args, ids) && Specifiers(f) == |args|
  }

  predicate BranchesKnown(r: Branches, inLoop: bool, inFor: bool, ids: seq<string>) {
    match r
    case ElsIf(c, b, rest) => ExprKnown(c, ids) && StmtKnown(b, inLoop, inFor, ids) &&
        BranchesKnown(rest, inLoop, inFor, StmtIds(b, ids))
    case Else(b) => StmtKnown(b, inLoop, inFor, ids)
  }

  lemma {:induction false} ExprOkCount(e: Expr, tm: seq<bool>, ids: seq<string>)
    ensures ExprOk(e, tm, ids) <==> ExprKnown(e, ids) && Taken(tm) + Peak(e) <= |tm|
    ensures Taken(tm) + Peak(e) <= |tm| ==> Taken(ExprTemps(e, tm)) == Taken(tm) + Held(e)
  {
    hide Peak, ExprFits, ExprKnown, ExprTemps, Taken;
    ExprFitsIff(e, tm);
    if ExprFits(e, tm) {
      ExprTaken(e, tm);
    }
  }

  /** What `StmtOkCount` says of one statement. */
  ghost predicate Counted(s: Stmt, inLoop: bool, inFor: bool, tm: seq<bool>, ids: seq<string>) {
    && (StmtOk(s, inLoop, inFor, tm, ids) <==> StmtKnown(s, inLoop, inFor, ids) && Taken(tm) + StmtPeak(s) <= |tm|)
    && (StmtOk(s, inLoop, inFor, tm, ids) ==> Taken(StmtTemps(s, tm)) == Taken(tm) + Leak(s))
  }

  ghost predicate BranchesCounted(r: Branches, inLoop: bool, inFor: bool, tm: seq<bool>, ids: seq<string>) {
    && (BranchesOk(r, inLoop, inFor, tm, ids) <==>
        BranchesKnown(r, inLoop, inFor, ids) && Taken(tm) + BranchesPeak(r) <= |tm|)
    && (BranchesOk(r, inLoop, inFor, tm, ids) ==> Taken(BranchesTemps(r, tm)) == Taken(tm) + BranchesLeak(r))
  }

  /**
   A statement compiles exactly when its names and jumps are right and its peak fits; it then keeps
   exactly its leak.
   */
  lemma {:induction false} StmtOkCount(s: Stmt, inLoop: bool, inFor: bool, tm: seq<bool>, ids: seq<string>)
    ensures StmtOk(s, inLoop, inFor, tm, ids) <==> StmtKnown(s, inLoop, inFor, ids) && Taken(tm) + StmtPeak(s) <= |tm|
    ensures StmtOk(s, inLoop, inFor, tm, ids) ==> Taken(StmtTemps(s, tm)) == Taken(tm) + Leak(s)
    decreases s, 1
  {
    assert Counted(s, inLoop, inFor, tm, ids) by {
      hide *;
      match s
      case Seq(a, b) => SeqCount(a, b, inLoop, inFor, tm, ids);
      case If(c, t, r) => IfCount(c, t, r, inLoop, inFor, tm, ids);
      case While(c, b) => WhileCount(c, b, inLoop, inFor, tm, ids);
      case DoWhile(b, c) => DoWhileCount(b, c, inLoop, inFor, tm, ids);
      case For(c, step, b) => ForCount(c, step, b, inLoop, inFor, tm, ids);
      case _ => PlainCount(s, inLoop, inFor, tm, ids);
    }
  }

  lemma PlainCount(s: Stmt, inLoop: bool, inFor: bool, tm: seq<bool>, ids: seq<string>)
    requires s.Skip? || s.Do? || s.Break? || s.Continue? || s.Call? || s.Printf?
    ensures Counted(s, inLoop, inFor, tm, ids)
  {
    hide Peak, ExprOk, ExprKnown, ExprTemps, Taken, StmtIds, SimpleIds, ArgsOk, ArgsKnown, ArgsPeak, Specifiers;
    if s.Do? && s.action.Assign? {
      ExprOkCount(s.action.value, tm, ids);
    } else if s.Call? {
      ExprOkCount(s.arg, tm, ids);
    } else if s.Printf? {
      ArgsOkCount(s.args, tm, ids);
    }
  }

  lemma {:induction false} SeqCount(a: Stmt, b: Stmt, inLoop: bool, inFor: bool, tm: seq<bool>, ids: seq<string>)
    ensures Counted(Seq(a, b), inLoop, inFor, tm, ids)
    decreases Seq(a, b), 0
  {
    hide Taken, StmtIds;
    StmtOkCount(a, inLoop, inFor, tm, ids);
    if StmtOk(a, inLoop, inFor, tm, ids) {
      StmtOkCount(b, inLoop, inFor, StmtTemps(a, tm), StmtIds(a, ids));
    }
  }

  lemma {:induction false} IfCount(c: Expr, t: Stmt, r: Branches, inLoop: bool, inFor: bool, tm: seq<bool>,
      ids: seq<string>)
    ensures Counted(If(c, t, r), inLoop, inFor, tm, ids)
    decreases If(c, t, r), 0
  {
    IfUnfolded(c, t, r, inLoop, inFor, tm, ids);
    hide Peak, ExprOk, ExprKnown, ExprTemps, Taken, StmtIds, StmtOk, StmtKnown, StmtPeak, StmtTemps, Leak,
         BranchesOk, BranchesKnown, BranchesPeak, BranchesTemps, BranchesLeak;
    ExprOkCount(c, tm, ids);
    StmtOkCount(t, inLoop, inFor, tm, ids);
    if StmtOk(t, inLoop, inFor, tm, ids) {
      BranchesOkCount(r, inLoop, inFor, StmtTemps(t, tm), StmtIds(t, ids));
    }
  }

  lemma IfUnfolded(c: Expr, t: Stmt, r: Branches, inLoop: bool, inFor: bool, tm: seq<bool>, ids: seq<string>)
    ensures
      var s, tt, it := If(c, t, r), StmtTemps(t, tm), StmtIds(t, ids);
      && (StmtOk(s, inLoop, inFor, tm, ids) <==>
            ExprOk(c, tm, ids) && StmtOk(t, inLoop, inFor, tm, ids) && BranchesOk(r, inLoop, inFor, tt, it))
      && (StmtKnown(s, inLoop, inFor, ids) <==>
            ExprKnown(c, ids) && StmtKnown(t, inLoop, inFor, ids) && BranchesKnown(r, inLoop, inFor, it))
      && StmtPeak(s) == Max(Peak(c), Max(StmtPeak(t), Leak(t) + BranchesPeak(r)))
      && Leak(s) == Leak(t) + BranchesLeak(r)
      && StmtTemps(s, tm) == BranchesTemps(r, tt)
  {
    hide Peak, ExprOk, ExprKnown, StmtIds, BranchesOk, BranchesKnown, BranchesPeak, BranchesTemps, BranchesLeak;
  }

  lemma {:induction false} WhileCount(c: Expr, b: Stmt, inLoop: bool, inFor: bool, tm: seq<bool>, ids: seq<string>)
    ensures Counted(While(c, b), inLoop, inFor, tm, ids)
    decreases While(c, b), 0
  {
    hide Peak, ExprOk, ExprKnown, ExprTemps, Taken, StmtIds;
    ExprOkCount(c, tm, ids);
    StmtOkCount(b, true, inFor, tm, ids);
  }

  lemma {:induction false} DoWhileCount(b: Stmt, c: Expr, inLoop: bool, inFor: bool, tm: seq<bool>, ids: seq<string>)
    ensures Counted(DoWhile(b, c), inLoop, inFor, tm, ids)
    decreases DoWhile(b, c), 0
  {
    hide Peak, ExprOk, ExprKnown, ExprTemps, Taken, StmtIds;
    StmtOkCount(b, true, inFor, tm, ids);
    if StmtOk(b, true, inFor, tm, ids) {
      ExprOkCount(c, StmtTemps(b, tm), StmtIds(b, ids));
    }
  }

  lemma {:induction false} ForCount(c: Expr, step: Simple, b: Stmt, inLoop: bool, inFor: bool, tm: seq<bool>,
      ids: seq<string>)
    ensures Counted(For(c, step, b), inLoop, inFor, tm, ids)
    decreases For(c, step, b), 0
  {
    hide Peak, ExprOk, ExprKnown, ExprTemps, Taken, StmtIds, SimpleIds;
    ExprOkCount(c, tm, ids);
    PeakHolds(c);
    if Taken(tm) + Peak(c) <= |tm| {
      var tc := ExprTemps(c, tm);
      if step.Assign? {
        ExprOkCount(step.value, tc, ids);
      }
      StmtOkCount(b, true, true, tc, SimpleIds(step, ids));
    }
  }

  lemma {:induction false} BranchesOkCount(r: Branches, inLoop: bool, inFor: bool, tm: seq<bool>, ids: seq<string>)
    ensures BranchesCounted(r, inLoop, inFor, tm, ids)
    decreases r, 1
  {
    hide Peak, ExprOk, ExprKnown, ExprTemps, Taken, StmtIds;
    match r
    case ElsIf(c, b, rest) =>
      ExprOkCount(c, tm, ids);
      StmtOkCount(b, inLoop, inFor, tm, ids);
      if StmtOk(b, inLoop, inFor, tm, ids) {
        BranchesOkCount(rest, inLoop, inFor, StmtTemps(b, tm), StmtIds(b, ids));
      }
    case Else(b) =>
      StmtOkCount(b, inLoop, inFor, tm, ids);
  }

  // ---------------------------------------------------------------- what the count means for the generator

  /** A script compiles exactly when it is safe, well named and its peak fits in the free slots. */
  lemma CompilesIffFits(s: Stmt, tm: seq<bool>, ids: seq<string>)
    ensures Compile(s, tm, ids).status.Ok? <==>
            Safe(s, TopLevel) && StmtKnown(s, false, false, ids) && Taken(tm) + StmtPeak(s) <= |tm|
    ensures Compile(s, tm, ids).status.Ok? ==> Taken(Compile(s, tm, ids).temps) == Taken(tm) + Leak(s)
  {
    hide Compile, StmtOk, StmtKnown, StmtPeak, Leak, StmtTemps, Safe, Taken;
    CompileExact(s, tm, ids);
    StmtOkCount(s, false, false, tm, ids);
  }

  /** The map after a statement is the map before it exactly when the statement has no leak. */
  lemma TempsKeptIff(g: Gen, s: Stmt)
    requires Ready(g) && Safe(s, SpotOf(g.stack)) && Run(g, StmtActions(s)).status.Ok?
    ensures Run(g, StmtActions(s)).temps == g.temps <==> Leak(s) == 0
  {
    hide Shaped, SpotOf, Run, StmtActions, Safe, StmtOk, StmtCode, StmtTemps, StmtKnown, StmtPeak, Leak, Taken, Insert,
      StmtBreaks, StmtIds;
    StmtGenerates(g, s);
    StmtOkCount(s, HasLoop(g.stack), HasFor(g.stack), g.temps, g.ids);
    if Leak(s) == 0 {
      NoLeakKeeps(s, g.temps);
    }
  }

  lemma {:induction false} NoLeakKeeps(s: Stmt, tm: seq<bool>)
    requires Leak(s) == 0
    ensures StmtTemps(s, tm) == tm
    decreases s
  {
    match s
    case Seq(a, b) => NoLeakKeeps(a, tm); NoLeakKeeps(b, tm);
    case If(_, t, r) => NoLeakKeeps(t, tm); NoLeakBranches(r, tm);
    case While(_, b) => NoLeakKeeps(b, tm);
    case DoWhile(b, _) => NoLeakKeeps(b, tm);
    case For(_, _, b) => NoLeakKeeps(b, tm);
    case _ =>
  }

  lemma {:induction false} NoLeakBranches(r: Branches, tm: seq<bool>)
    requires BranchesLeak(r) == 0
    ensures BranchesTemps(r, tm) == tm
    decreases r
  {
    match r
    case ElsIf(_, b, rest) => NoLeakKeeps(b, tm); NoLeakBranches(rest, tm);
    case Else(b) => NoLeakKeeps(b, tm);
  }

  // ---------------------------------------------------------------- expressions by height

  function Height(e: Expr): nat {
    match e
    case Number(_) => 0
    case Read(_) => 0
    case Unary(_, a) => 1 + Height(a)
    case Binary(_, l, r) => 1 + Max(Height(l), Height(r))
  }

  lemma {:induction false} PeakWithinHeight(e: Expr)
    ensures Peak(e) <= Height(e) + 1
  {
    match e
    case Unary(_, a) => PeakWithinHeight(a);
    case Binary(_, l, r) => PeakWithinHeight(l); PeakWithinHeight(r);
    case _ =>
  }

  /** `a op b op c ...`, as the grammar associates it. */
  predicate LeftChain(e: Expr) {
    Leaf(e) || (e.Binary? && Leaf(e.right) && LeftChain(e.left))
  }

  lemma {:induction false} ChainPeak(e: Expr)
    requires LeftChain(e)
    ensures Peak(e) <= 2
  {
    if !Leaf(e) {
      ChainPeak(e.left);
    }
  }

  /** The complete tree of one operator. */
  function Complete(op: BinaryOp, h: nat): Expr {
    if h == 0 then Number(0) else Binary(op, Complete(op, h - 1), Complete(op, h - 1))
  }

  lemma CompleteIs(op: BinaryOp, h: nat)
    ensures Complete(op, h) == if h == 0 then Number(0) else Binary(op, Complete(op, h - 1), Complete(op, h - 1))
  {
  }

  lemma TwinPeak(op: BinaryOp, l: Expr)
    ensures
      var e := Binary(op, l, l);
      && Height(e) == 1 + Height(l) && Held(e) == 1
      && Peak(e) == Max(Peak(l), Max(Held(l) + Peak(l), Held(l) + Held(l) + 1))
      && ExprKnown(e, []) == ExprKnown(l, [])
  {
  }

  lemma {:induction false} CompletePeak(op: BinaryOp, h: nat)
    ensures Height(Complete(op, h)) == h && ExprKnown(Complete(op, h), []) && Held(Complete(op, h)) == Min(h, 1)
    ensures Peak(Complete(op, h)) == if h < 2 then h else h + 1
  {
    CompleteIs(op, h);
    if h != 0 {
      hide Complete, Peak, Held, ExprKnown, Height;
      TwinPeak(op, Complete(op, h - 1));
      CompletePeak(op, h - 1);
    }
  }

  function Min(a: nat, b: nat): nat {
    if a < b then a else b
  }

  /** From an empty map every expression of height at most 127 compiles; one of height 128 does not. */
  lemma HeightSuffices(place: Place, e: Expr, ids: seq<string>)
    requires Height(e) < MAX_TEMP_COUNT && ExprKnown(e, ids)
    ensures Compile(Do(Assign(place, e)), NoTemps(), ids).status.Ok?
  {
    hide Compile, ExprKnown, Peak, Height;
    var s := Do(Assign(place, e));
    CompilesIffFits(s, NoTemps(), ids);
    PeakWithinHeight(e);
    NoneTaken(MAX_TEMP_COUNT);
    assert SimplePeak(Assign(place, e)) == Peak(e);
  }

  lemma HeightBoundIsTight(place: Place, op: BinaryOp)
    ensures Height(Complete(op, MAX_TEMP_COUNT)) == MAX_TEMP_COUNT
    ensures !Compile(Do(Assign(place, Complete(op, MAX_TEMP_COUNT))), NoTemps(), []).status.Ok?
  {
    hide Compile, ExprKnown, Peak, Height, Complete;
    var e := Complete(op, MAX_TEMP_COUNT);
    CompilesIffFits(Do(Assign(place, e)), NoTemps(), []);
    CompletePeak(op, MAX_TEMP_COUNT);
    NoneTaken(MAX_TEMP_COUNT);
    assert SimplePeak(Assign(place, e)) == Peak(e);
  }

  lemma {:induction false} NoneTaken(n: nat)
    ensures Taken(seq(n, _ => false)) == 0
  {
    if n != 0 {
      NoneTaken(n - 1);
      var t := seq(n, _ => false);
      assert t[1..] == seq(n - 1, _ => false);
      assert t[..n - 1] == seq(n - 1, _ => false);
    }
  }

  // ---------------------------------------------------------------- the leak adds up

  function Repeat(s: Stmt, n: nat): Stmt {
    if n == 0 then Skip else Seq(Repeat(s, n - 1), s)
  }

  lemma {:induction false} RepeatPeak(s: Stmt, n: nat)
    requires Leak(s) == 1
    ensures Leak(Repeat(s, n)) == n
    ensures StmtPeak(Repeat(s, n)) == if n == 0 then 0 else n - 1 + StmtPeak(s)
  {
    if n != 0 {
      RepeatPeak(s, n - 1);
      PeakCoversLeak(s);
    }
  }

  lemma {:induction false} RepeatKnown(s: Stmt, n: nat, ids: seq<string>)
    requires StmtKnown(s, false, false, ids) && StmtIds(s, ids) == ids && Safe(s, TopLevel)
    ensures StmtKnown(Repeat(s, n), false, false, ids) && StmtIds(Repeat(s, n), ids) == ids &&
      Safe(Repeat(s, n), TopLevel)
  {
    if n != 0 {
      RepeatKnown(s, n - 1, ids);
    }
  }

  lemma {:induction false} PeakCoversLeak(s: Stmt)
    ensures Leak(s) <= StmtPeak(s)
    decreases s
  {
    match s
    case Seq(a, b) => PeakCoversLeak(a); PeakCoversLeak(b);
    case If(_, t, r) => PeakCoversLeak(t); BranchesPeakCoversLeak(r);
    case While(_, b) => PeakCoversLeak(b);
    case DoWhile(b, _) => PeakCoversLeak(b);
    case For(_, _, b) => PeakCoversLeak(b);
    case Call(_, e) => PeakHolds(e);
    case _ =>
  }

  lemma {:induction false} BranchesPeakCoversLeak(r: Branches)
    ensures BranchesLeak(r) <= BranchesPeak(r)
    decreases r
  {
    match r
    case ElsIf(_, b, rest) => PeakCoversLeak(b); BranchesPeakCoversLeak(rest);
    case Else(b) => PeakCoversLeak(b);
  }

  /**
   A statement that leaks one temporary can stand in a script at most
   `129 - StmtPeak(s)` times, although every copy needs the same few slots.
   */
  lemma LeakAddsUp(s: Stmt, n: nat, ids: seq<string>)
    requires Leak(s) == 1 && StmtKnown(s, false, false, ids) && StmtIds(s, ids) == ids && Safe(s, TopLevel)
    ensures Compile(Repeat(s, n), NoTemps(), ids).status.Ok? <==> n == 0 || n <= MAX_TEMP_COUNT + 1 - StmtPeak(s)
  {
    hide Compile, StmtKnown, StmtPeak, Leak, Safe, Repeat, StmtIds;
    CompilesIffFits(Repeat(s, n), NoTemps(), ids);
    RepeatPeak(s, n);
    RepeatKnown(s, n, ids);
    NoneTaken(MAX_TEMP_COUNT);
  }
}
