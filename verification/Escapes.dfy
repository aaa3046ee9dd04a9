/**
 Where break and continue go, at any depth: a break to the first cell after its
 innermost loop, a continue to the step code of the innermost `for` around it.
 */
module Escapes {
  import opened Words
  import opened Script
  import opened Codegen
  import opened Layout
  import opened Preservation
  import Compilation
  import Misuse

  /** The operand addresses of the continues that belong to the `for` around a statement. */
  function StmtContinues(s: Stmt, base: nat): seq<nat> {
    match s
    case Seq(a, b) => StmtContinues(a, base) + StmtContinues(b, base + StmtSize(a))
    case If(c, t, r) =>
      var start := base + ExprSize(c) + 3;
      StmtContinues(t, start) + BranchesContinues(r, start + StmtSize(t))
    case While(c, b) => StmtContinues(b, base + ExprSize(c) + 3)
    case DoWhile(b, _) => StmtContinues(b, base)
    case Continue => [base + 1]
    case _ => []
  }

  function BranchesContinues(r: Branches, base: nat): seq<nat> {
    match r
    case ElsIf(c, b, rest) =>
      var start := base + 2 + ExprSize(c) + 3;
      StmtContinues(b, start) + BranchesContinues(rest, start + StmtSize(b))
    case Else(b) => StmtContinues(b, base + 2)
  }

  /** A loop and the address of its first cell. */
  datatype Site = Site(loop: Stmt, at: nat)

  /** All loops of a statement, at every depth. */
  function Loops(s: Stmt, base: nat): seq<Site> {
    match s
    case Seq(a, b) => Loops(a, base) + Loops(b, base + StmtSize(a))
    case If(c, t, r) =>
      var start := base + ExprSize(c) + 3;
      Loops(t, start) + BranchesLoops(r, start + StmtSize(t))
    case While(c, b) => [Site(s, base)] + Loops(b, base + ExprSize(c) + 3)
    case DoWhile(b, _) => [Site(s, base)] + Loops(b, base)
    case For(c, step, b) => [Site(s, base)] + Loops(b, ForBodyAt(c, step, base))
    case _ => []
  }

  function BranchesLoops(r: Branches, base: nat): seq<Site> {
    match r
    case ElsIf(c, b, rest) =>
      var start := base + 2 + ExprSize(c) + 3;
      Loops(b, start) + BranchesLoops(rest, start + StmtSize(b))
    case Else(b) => Loops(b, base + 2)
  }

  function BodyAt(l: Site): nat
    requires l.loop.While? || l.loop.DoWhile? || l.loop.For?
  {
    match l.loop
    case While(c, _) => l.at + ExprSize(c) + 3
    case DoWhile(_, _) => l.at
    case For(c, step, _) => ForBodyAt(c, step, l.at)
  }

  /** The jump whose operand is at `a` goes to `target`. */
  predicate Jump(code: seq<Cell>, a: nat, target: nat) {
    0 < a < |code| && code[a - 1] == OpCell(JmpCode) && code[a] == NumberCell(target)
  }

  predicate JumpAll(code: seq<Cell>, operands: seq<nat>, target: nat) {
    forall a :: a in operands ==> Jump(code, a, target)
  }

  /** The breaks of a loop land behind it; the continues of a `for` land on its step code. */
  predicate Lands(code: seq<Cell>, l: Site) {
    && (l.loop.While? || l.loop.DoWhile? || l.loop.For?)
    && l.at + StmtSize(l.loop) <= |code|
    && JumpAll(code, StmtBreaks(l.loop.body, BodyAt(l)), l.at + StmtSize(l.loop))
    && (l.loop.For? ==> JumpAll(code, StmtContinues(l.loop.body, BodyAt(l)), ForStepAt(l.loop.cond, l.at)))
  }

  // ---------------------------------------------------------------- the parts of a statement in its code

  lemma SeqParts(code: seq<Cell>, a: Stmt, b: Stmt, base: nat, brk: nat, cont: nat, tm: seq<bool>, ids: seq<string>)
    requires At(code, base, StmtCode(Seq(a, b), base, brk, cont, tm, ids))
    ensures At(code, base, StmtCode(a, base, brk, cont, tm, ids))
    ensures At(code, base + StmtSize(a), StmtCode(b, base + StmtSize(a), brk, cont, StmtTemps(a, tm), StmtIds(a, ids)))
  {
    hide At, StmtCode, StmtSize, StmtTemps, StmtIds;
    SeqUnfolds(a, b, base, brk, cont, tm, ids);
    AtSplit(code, base, StmtCode(a, base, brk, cont, tm, ids),
        StmtCode(b, base + StmtSize(a), brk, cont, StmtTemps(a, tm), StmtIds(a, ids)));
  }

  lemma IfParts(code: seq<Cell>, c: Expr, t: Stmt, r: Branches, base: nat, brk: nat, cont: nat, tm: seq<bool>,
      ids: seq<string>)
    requires At(code, base, StmtCode(If(c, t, r), base, brk, cont, tm, ids))
    ensures
      var start := base + ExprSize(c) + 3;
      var next := start + StmtSize(t);
      && At(code, start, StmtCode(t, start, brk, cont, tm, ids))
      && At(code, next, BranchesCode(r, next, next + BranchesSize(r), brk, cont, StmtTemps(t, tm), StmtIds(t, ids)))
  {
    hide At, StmtCode, BranchesCode, CondCode, StmtSize, StmtTemps, StmtIds, ExprSize, BranchesSize;
    IfUnfolds(c, t, r, base, brk, cont, tm, ids);
    var start := base + ExprSize(c) + 3;
    var next := start + StmtSize(t);
    var body, rest := StmtCode(t, start, brk, cont, tm, ids),
        BranchesCode(r, next, next + BranchesSize(r), brk, cont, StmtTemps(t, tm), StmtIds(t, ids));
    AtSplit(code, base, CondCode(c, next + 2, tm, ids), body + rest);
    AtSplit(code, start, body, rest);
  }

  lemma ElsIfParts(code: seq<Cell>, c: Expr, b: Stmt, rest: Branches, base: nat, end: nat, brk: nat, cont: nat,
      tm: seq<bool>, ids: seq<string>)
    requires At(code, base, BranchesCode(ElsIf(c, b, rest), base, end, brk, cont, tm, ids))
    ensures
      var start := base + 2 + ExprSize(c) + 3;
      var next := start + StmtSize(b);
      && At(code, start, StmtCode(b, start, brk, cont, tm, ids))
      && At(code, next, BranchesCode(rest, next, end, brk, cont, StmtTemps(b, tm), StmtIds(b, ids)))
  {
    hide At, StmtCode, BranchesCode, CondCode, StmtSize, StmtTemps, StmtIds, ExprSize, BranchesSize;
    ElsIfUnfolds(c, b, rest, base, end, brk, cont, tm, ids);
    var start := base + 2 + ExprSize(c) + 3;
    var next := start + StmtSize(b);
    var body, more := StmtCode(b, start, brk, cont, tm, ids),
        BranchesCode(rest, next, end, brk, cont, StmtTemps(b, tm), StmtIds(b, ids));
    AtSplit(code, base, [OpCell(JmpCode), NumberCell(end)] + CondCode(c, next + 2, tm, ids), body + more);
    AtSplit(code, start, body, more);
  }

  lemma ElseParts(code: seq<Cell>, b: Stmt, base: nat, end: nat, brk: nat, cont: nat, tm: seq<bool>, ids: seq<string>)
    requires At(code, base, BranchesCode(Else(b), base, end, brk, cont, tm, ids))
    ensures At(code, base + 2, StmtCode(b, base + 2, brk, cont, tm, ids))
  {
    hide At, StmtCode, BranchesCode;
    ElseUnfolds(b, base, end, brk, cont, tm, ids);
    AtSplit(code, base, [OpCell(JmpCode), NumberCell(end)], StmtCode(b, base + 2, brk, cont, tm, ids));
  }

  lemma WhileParts(code: seq<Cell>, c: Expr, b: Stmt, base: nat, brk: nat, cont: nat, tm: seq<bool>, ids: seq<string>)
    requires At(code, base, StmtCode(While(c, b), base, brk, cont, tm, ids))
    ensures
      var start := base + ExprSize(c) + 3;
      At(code, start, StmtCode(b, start, base + StmtSize(While(c, b)), cont, tm, ids))
  {
    hide At, StmtCode, CondCode, StmtSize, StmtTemps, StmtIds, ExprSize;
    WhileUnfolds(c, b, base, brk, cont, tm, ids);
    var start, end := base + ExprSize(c) + 3, base + ExprSize(c) + 3 + StmtSize(b) + 2;
    var test, body := CondCode(c, end, tm, ids), StmtCode(b, start, end, cont, tm, ids);
    AtSplit(code, base, test + body, [OpCell(JmpCode), NumberCell(base)]);
    AtSplit(code, base, test, body);
  }

  lemma DoWhileParts(code: seq<Cell>, b: Stmt, c: Expr, base: nat, brk: nat, cont: nat, tm: seq<bool>, ids: seq<string>)
    requires At(code, base, StmtCode(DoWhile(b, c), base, brk, cont, tm, ids))
    ensures At(code, base, StmtCode(b, base, base + StmtSize(DoWhile(b, c)), cont, tm, ids))
  {
    hide At, StmtCode, ExprCode, ExprSymbol, StmtSize, StmtTemps, StmtIds, ExprSize;
    DoWhileUnfolds(b, c, base, brk, cont, tm, ids);
    var end, tb, ib := base + StmtSize(b) + ExprSize(c) + 3, StmtTemps(b, tm), StmtIds(b, ids);
    var body, test := StmtCode(b, base, end, cont, tm, ids), ExprCode(c, tb, ib);
    var jump := [OpCell(JnzCode), NumberCell(base), ExprSymbol(c, tb, ib)];
    assert body + test + jump == body + (test + jump);
    AtSplit(code, base, body, test + jump);
  }

  lemma ForParts(code: seq<Cell>, c: Expr, step: Simple, b: Stmt, base: nat, brk: nat, cont: nat, tm: seq<bool>,
      ids: seq<string>)
    requires At(code, base, StmtCode(For(c, step, b), base, brk, cont, tm, ids))
    ensures
      var start := ForBodyAt(c, step, base);
      At(code, start, StmtCode(b, start, base + StmtSize(For(c, step, b)), ForStepAt(c, base), ExprTemps(c, tm),
          SimpleIds(step, ids)))
  {
    hide At, StmtCode, ForHead, StmtSize, StmtTemps, StmtIds, ExprSize, SimpleSize, ExprTemps, SimpleIds;
    ForUnfolds(c, step, b, base, brk, cont, tm, ids);
    var stepAt, start := ForStepAt(c, base), ForBodyAt(c, step, base);
    var end := start + StmtSize(b) + 2;
    var head, body := ForHead(c, step, base, end, tm, ids),
        StmtCode(b, start, end, stepAt, ExprTemps(c, tm), SimpleIds(step, ids));
    AtSplit(code, base, head + body, [OpCell(JmpCode), NumberCell(stepAt)]);
    AtSplit(code, base, head, body);
  }

  lemma JumpThere(code: seq<Cell>, base: nat, target: nat)
    requires At(code, base, [OpCell(JmpCode), NumberCell(target)])
    ensures Jump(code, base + 1, target)
  {
    AtIndex(code, base, [OpCell(JmpCode), NumberCell(target)], 0);
    AtIndex(code, base, [OpCell(JmpCode), NumberCell(target)], 1);
  }

  // ---------------------------------------------------------------- breaks and continues

  lemma BreakHere(code: seq<Cell>, base: nat, brk: nat, cont: nat, tm: seq<bool>, ids: seq<string>)
    requires At(code, base, StmtCode(Break, base, brk, cont, tm, ids))
    ensures Jump(code, base + 1, brk)
  {
    hide At, Jump;
    JumpThere(code, base, brk);
  }

  lemma ContinueHere(code: seq<Cell>, base: nat, brk: nat, cont: nat, tm: seq<bool>, ids: seq<string>)
    requires At(code, base, StmtCode(Continue, base, brk, cont, tm, ids))
    ensures Jump(code, base + 1, cont)
  {
    hide At, Jump;
    JumpThere(code, base, cont);
  }

  lemma {:induction false} BreaksJump(code: seq<Cell>, s: Stmt, base: nat, brk: nat, cont: nat, tm: seq<bool>,
      ids: seq<string>)
    requires At(code, base, StmtCode(s, base, brk, cont, tm, ids))
    ensures JumpAll(code, StmtBreaks(s, base), brk)
    decreases s
  {
    hide At, StmtCode, BranchesCode, Jump, StmtTemps, StmtIds, StmtSize, ExprSize, BranchesSize;
    match s
    case Seq(a, b) =>
      SeqParts(code, a, b, base, brk, cont, tm, ids);
      BreaksJump(code, a, base, brk, cont, tm, ids);
      BreaksJump(code, b, base + StmtSize(a), brk, cont, StmtTemps(a, tm), StmtIds(a, ids));
    case If(c, t, r) =>
      IfParts(code, c, t, r, base, brk, cont, tm, ids);
      var start := base + ExprSize(c) + 3;
      var next := start + StmtSize(t);
      BreaksJump(code, t, start, brk, cont, tm, ids);
      BranchesBreaksJump(code, r, next, next + BranchesSize(r), brk, cont, StmtTemps(t, tm), StmtIds(t, ids));
    case Break =>
      BreakHere(code, base, brk, cont, tm, ids);
    case _ =>
  }

  lemma {:induction false} BranchesBreaksJump(code: seq<Cell>, r: Branches, base: nat, end: nat, brk: nat, cont: nat,
      tm: seq<bool>, ids: seq<string>)
    requires At(code, base, BranchesCode(r, base, end, brk, cont, tm, ids))
    ensures JumpAll(code, BranchesBreaks(r, base), brk)
    decreases r
  {
    hide At, StmtCode, BranchesCode, Jump, StmtTemps, StmtIds, StmtSize, ExprSize;
    match r
    case ElsIf(c, b, rest) =>
      ElsIfParts(code, c, b, rest, base, end, brk, cont, tm, ids);
      var start := base + 2 + ExprSize(c) + 3;
      BreaksJump(code, b, start, brk, cont, tm, ids);
      BranchesBreaksJump(code, rest, start + StmtSize(b), end, brk, cont, StmtTemps(b, tm), StmtIds(b, ids));
    case Else(b) =>
      ElseParts(code, b, base, end, brk, cont, tm, ids);
      BreaksJump(code, b, base + 2, brk, cont, tm, ids);
  }

  lemma {:induction false} ContinuesJump(code: seq<Cell>, s: Stmt, base: nat, brk: nat, cont: nat, tm: seq<bool>,
      ids: seq<string>)
    requires At(code, base, StmtCode(s, base, brk, cont, tm, ids))
    ensures JumpAll(code, StmtContinues(s, base), cont)
    decreases s
  {
    hide At, StmtCode, BranchesCode, Jump, StmtTemps, StmtIds, StmtSize, ExprSize, BranchesSize;
    match s
    case Seq(a, b) =>
      SeqParts(code, a, b, base, brk, cont, tm, ids);
      ContinuesJump(code, a, base, brk, cont, tm, ids);
      ContinuesJump(code, b, base + StmtSize(a), brk, cont, StmtTemps(a, tm), StmtIds(a, ids));
    case If(c, t, r) =>
      IfParts(code, c, t, r, base, brk, cont, tm, ids);
      var start := base + ExprSize(c) + 3;
      var next := start + StmtSize(t);
      ContinuesJump(code, t, start, brk, cont, tm, ids);
      BranchesContinuesJump(code, r, next, next + BranchesSize(r), brk, cont, StmtTemps(t, tm), StmtIds(t, ids));
    case While(c, b) =>
      WhileParts(code, c, b, base, brk, cont, tm, ids);
      ContinuesJump(code, b, base + ExprSize(c) + 3, base + StmtSize(s), cont, tm, ids);
    case DoWhile(b, c) =>
      DoWhileParts(code, b, c, base, brk, cont, tm, ids);
      ContinuesJump(code, b, base, base + StmtSize(s), cont, tm, ids);
    case Continue =>
      ContinueHere(code, base, brk, cont, tm, ids);
    case _ =>
  }

  lemma {:induction false} BranchesContinuesJump(code: seq<Cell>, r: Branches, base: nat, end: nat, brk: nat,
      cont: nat, tm: seq<bool>, ids: seq<string>)
    requires At(code, base, BranchesCode(r, base, end, brk, cont, tm, ids))
    ensures JumpAll(code, BranchesContinues(r, base), cont)
    decreases r
  {
    hide At, StmtCode, BranchesCode, Jump, StmtTemps, StmtIds, StmtSize, ExprSize;
    match r
    case ElsIf(c, b, rest) =>
      ElsIfParts(code, c, b, rest, base, end, brk, cont, tm, ids);
      var start := base + 2 + ExprSize(c) + 3;
      ContinuesJump(code, b, start, brk, cont, tm, ids);
      BranchesContinuesJump(code, rest, start + StmtSize(b), end, brk, cont, StmtTemps(b, tm), StmtIds(b, ids));
    case Else(b) =>
      ElseParts(code, b, base, end, brk, cont, tm, ids);
      ContinuesJump(code, b, base + 2, brk, cont, tm, ids);
  }

  // ---------------------------------------------------------------- every loop

  predicate AllLand(code: seq<Cell>, sites: seq<Site>) {
    forall l :: l in sites ==> Lands(code, l)
  }

  lemma {:induction false} LoopsLand(code: seq<Cell>, s: Stmt, base: nat, brk: nat, cont: nat, tm: seq<bool>,
      ids: seq<string>)
    requires At(code, base, StmtCode(s, base, brk, cont, tm, ids))
    ensures AllLand(code, Loops(s, base))
    decreases s
  {
    hide StmtCode, BranchesCode, Lands, StmtTemps, StmtIds, StmtSize, ExprSize, ExprTemps, SimpleIds, ForBodyAt,
      StmtBreaks, StmtContinues;
    match s
    case Seq(a, b) =>
      SeqParts(code, a, b, base, brk, cont, tm, ids);
      LoopsLand(code, a, base, brk, cont, tm, ids);
      LoopsLand(code, b, base + StmtSize(a), brk, cont, StmtTemps(a, tm), StmtIds(a, ids));
    case If(c, t, r) =>
      IfParts(code, c, t, r, base, brk, cont, tm, ids);
      var start := base + ExprSize(c) + 3;
      var next := start + StmtSize(t);
      LoopsLand(code, t, start, brk, cont, tm, ids);
      BranchesLoopsLand(code, r, next, next + BranchesSize(r), brk, cont, StmtTemps(t, tm), StmtIds(t, ids));
    case While(c, b) =>
      WhileParts(code, c, b, base, brk, cont, tm, ids);
      var start, end := base + ExprSize(c) + 3, base + StmtSize(s);
      LoopsLand(code, b, start, end, cont, tm, ids);
      BreaksJump(code, b, start, end, cont, tm, ids);
      LandsHere(code, Site(s, base));
    case DoWhile(b, c) =>
      DoWhileParts(code, b, c, base, brk, cont, tm, ids);
      var end := base + StmtSize(s);
      LoopsLand(code, b, base, end, cont, tm, ids);
      BreaksJump(code, b, base, end, cont, tm, ids);
      LandsHere(code, Site(s, base));
    case For(c, step, b) =>
      ForParts(code, c, step, b, base, brk, cont, tm, ids);
      var start, end, te, ie := ForBodyAt(c, step, base), base + StmtSize(s), ExprTemps(c, tm), SimpleIds(step, ids);
      LoopsLand(code, b, start, end, ForStepAt(c, base), te, ie);
      BreaksJump(code, b, start, end, ForStepAt(c, base), te, ie);
      ContinuesJump(code, b, start, end, ForStepAt(c, base), te, ie);
      LandsHere(code, Site(s, base));
    case _ =>
  }

  lemma LandsHere(code: seq<Cell>, l: Site)
    requires l.loop.While? || l.loop.DoWhile? || l.loop.For?
    requires l.at + StmtSize(l.loop) <= |code|
    requires JumpAll(code, StmtBreaks(l.loop.body, BodyAt(l)), l.at + StmtSize(l.loop))
    requires l.loop.For? ==> JumpAll(code, StmtContinues(l.loop.body, BodyAt(l)), ForStepAt(l.loop.cond, l.at))
    ensures Lands(code, l)
  {
  }

  lemma {:induction false} BranchesLoopsLand(code: seq<Cell>, r: Branches, base: nat, end: nat, brk: nat, cont: nat,
      tm: seq<bool>, ids: seq<string>)
    requires At(code, base, BranchesCode(r, base, end, brk, cont, tm, ids))
    ensures AllLand(code, BranchesLoops(r, base))
    decreases r
  {
    hide At, StmtCode, BranchesCode, Lands, StmtTemps, StmtIds, StmtSize, ExprSize;
    match r
    case ElsIf(c, b, rest) =>
      ElsIfParts(code, c, b, rest, base, end, brk, cont, tm, ids);
      var start := base + 2 + ExprSize(c) + 3;
      LoopsLand(code, b, start, brk, cont, tm, ids);
      BranchesLoopsLand(code, rest, start + StmtSize(b), end, brk, cont, StmtTemps(b, tm), StmtIds(b, ids));
    case Else(b) =>
      ElseParts(code, b, base, end, brk, cont, tm, ids);
      LoopsLand(code, b, base + 2, brk, cont, tm, ids);
  }

  /** In every compiled script, for every loop at every depth, breaks and continues land where they should. */
  lemma EscapesLand(s: Stmt, tm: seq<bool>, ids: seq<string>)
    requires Compile(s, tm, ids).status.Ok?
    ensures forall l :: l in Loops(s, 0) ==> Lands(Compile(s, tm, ids).code, l)
  {
    hide Compile, StmtOk, StmtCode, StmtTemps, StmtIds, StmtSize, Compilation.Safe, Lands, Loops;
    var code := Compile(s, tm, ids).code;
    Misuse.CompileExact(s, tm, ids);
    assert code[0..|code|] == code;
    LoopsLand(code, s, 0, PLACEHOLDER, 0, tm, ids);
  }
}
