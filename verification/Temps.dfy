/**
 The temporaries: no two live ones share a slot on any run of the generator,
 and how many a script needs is known exactly from its text.
 */
module Temps {
  import opened Words
  import opened Script
  import opened Codegen
  import opened Layout
  import opened Stacks

  // ---------------------------------------------------------------- an invariant of every run

  /** The temporaries on the stack are pairwise different and their slots are taken. */
  predicate Sound(g: Gen) {
    && (forall i :: 0 <= i < |g.stack| && g.stack[i].TempTok? ==> g.stack[i].id < |g.temps| && g.temps[g.stack[i].id])
    && (forall i, j :: 0 <= i < j < |g.stack| && g.stack[i].TempTok? && g.stack[j].TempTok? ==>
        g.stack[i].id != g.stack[j].id)
  }

  lemma {:induction false} PatchDownPrefix(stack: seq<Token>, code: seq<Cell>, mark: Marker, offset: nat, target: nat)
    ensures var p := PatchDown(stack, code, mark, offset, target); p.Popped? ==> p.stack <= stack
    decreases |stack|
  {
    if stack != [] && Top(stack) != Mark(mark) && Top(stack).NumberTok? && Patchable(code, Top(stack).value + offset) {
      PatchDownPrefix(Below(stack), Patch(code, Top(stack).value + offset, target), mark, offset, target);
    }
  }

  /** What is left of a sound stack, with tokens added that are no temporaries, is sound. */
  lemma SoundPrefix(g: Gen, n: nat, more: seq<Token>, code: seq<Cell>, ids: seq<string>)
    requires Sound(g) && n <= |g.stack| && forall i :: 0 <= i < |more| ==> !more[i].TempTok?
    ensures Sound(g.(stack := g.stack[..n] + more, code := code, ids := ids))
  {
  }

  /** Freeing a token that has left the stack. */
  lemma SoundRelease(g: Gen, n: nat, k: nat)
    requires Sound(g) && n <= k < |g.stack|
    ensures Sound(g.(stack := g.stack[..n], temps := Release(g.temps, g.stack[k])))
    ensures forall j :: n <= j < |g.stack| && j != k && g.stack[j].TempTok? ==>
              g.stack[j].id < |g.temps| && Release(g.temps, g.stack[k])[g.stack[j].id]
  {
  }

  lemma {:induction false} SoundReleaseAll(g: Gen, n: nat)
    requires Sound(g) && n <= |g.stack|
    ensures Sound(g.(stack := g.stack[..n], temps := ReleaseAll(g.temps, g.stack[n..])))
    decreases |g.stack| - n
  {
    if n == |g.stack| {
      assert g.stack[..n] == g.stack && g.stack[n..] == [];
    } else {
      var k := |g.stack| - 1;
      var g1 := g.(stack := g.stack[..k], temps := Release(g.temps, g.stack[k]));
      SoundRelease(g, k, k);
      SoundReleaseAll(g1, n);
      assert Top(g.stack[n..]) == g.stack[k] && Below(g.stack[n..]) == g1.stack[n..];
      assert g1.stack[..n] == g.stack[..n];
    }
  }

  lemma UnarySound(g: Gen, op: UnaryOp)
    requires Sound(g)
    ensures Sound(GenUnary(g, op))
  {
  }

  lemma BinarySound(g: Gen, op: BinaryOp)
    requires Sound(g)
    ensures Sound(GenBinary(g, op))
  {
    hide Symbol, Operand, Resolved;
    var g' := GenBinary(g, op);
    if g'.status != g.status {
    } else if g' != g {
      var n := |g.stack| - 2;
      var a, b, d := g.stack[n + 1], g.stack[n], FirstFree(g.temps);
      assert g'.stack == g.stack[..n] + [TempTok(d)];
    }
  }

  lemma InsertSound(g: Gen, addr: nat, code: seq<Cell>)
    requires Sound(g)
    ensures Sound(g.(stack := Insert(g.stack, [NumberTok(addr)]), code := code))
  {
    hide Insert;
    if HasLoop(g.stack) {
      var k := LoopSplit(g.stack);
      InsertAtMark(g.stack[..k], g.stack[k], [NumberTok(addr)]);
      InsertAbove(g.stack[..k] + [g.stack[k]], [NumberTok(addr)], g.stack[k + 1..]);
      assert g.stack == g.stack[..k] + [g.stack[k]] + g.stack[k + 1..];
    } else {
      InsertNowhere(g.stack, [NumberTok(addr)]);
    }
  }

  lemma MovSound(g: Gen)
    requires Sound(g)
    ensures Sound(GenMov(g))
  {
    hide IndexOf;
    if |g.stack| >= 2 {
      var n := |g.stack| - 2;
      SoundRelease(g, n, n + 1);
      assert Below(Below(g.stack)) == g.stack[..n];
    }
  }

  lemma PrintfSound(g: Gen)
    requires Sound(g)
    ensures Sound(GenPrintf(g))
  {
    hide HasVarg, AboveVarg, Specifiers, TextCells, SymbolsOf, ReleaseAll;
    var args := AboveVarg(g.stack);
    var g' := GenPrintf(g);
    if g'.status == g.status && HasVarg(g.stack) && |g.stack| - |args| >= 2 {
      var n := |g.stack| - |args|;
      VargSplit(g.stack);
      SoundReleaseAll(g, n);
      SoundPrefix(g.(stack := g.stack[..n], temps := ReleaseAll(g.temps, g.stack[n..])), n - 2, [], g'.code, g.ids);
      assert g.stack[..n][..n - 2] + [] == g.stack[..n - 2];
    }
  }

  lemma {:induction false} VargSplit(stack: seq<Token>)
    requires HasVarg(stack)
    ensures AboveVarg(stack) == stack[|stack| - |AboveVarg(stack)|..]
  {
    if Top(stack) != Mark(VargMark) {
      VargSplit(Below(stack));
    }
  }

  /** Rules that pop at most two tokens, free at most the top one and push no temporary. */
  lemma PopSound(g: Gen, g': Gen, n: nat, more: seq<Token>)
    requires Sound(g) && n <= |g.stack| && g'.stack == g.stack[..n] + more &&
      (forall i :: 0 <= i < |more| ==> !more[i].TempTok?)
    requires g'.temps == g.temps || (n < |g.stack| && g'.temps == Release(g.temps, Top(g.stack)))
    ensures Sound(g')
  {
    if n < |g.stack| {
      SoundRelease(g, n, |g.stack| - 1);
    }
  }

  /** Closing the jumps of a statement leaves a prefix of the stack. */
  lemma PatchSound(g: Gen, g': Gen, n: nat, code: seq<Cell>, mark: Marker, offset: nat, target: nat)
    requires Sound(g) && n <= |g.stack|
    requires PatchDown(g.stack[..n], code, mark, offset, target).Popped?
    requires g'.stack == PatchDown(g.stack[..n], code, mark, offset, target).stack
    requires g'.temps == g.temps || (n < |g.stack| && g'.temps == Release(g.temps, Top(g.stack)))
    ensures Sound(g')
  {
    PatchDownPrefix(g.stack[..n], code, mark, offset, target);
    assert g'.stack == g.stack[..|g'.stack|] + [];
    PopSound(g, g', |g'.stack|, []);
  }

  lemma EndOfIfSound(g: Gen)
    requires Sound(g)
    ensures Sound(GenEndOfIf(g))
  {
    hide PatchDown;
    assert g.stack[..|g.stack|] == g.stack;
    if PatchDown(g.stack, g.code, IfMark, 1, |g.code|).Popped? {
      PatchSound(g, GenEndOfIf(g), |g.stack|, g.code, IfMark, 1, |g.code|);
    }
  }

  lemma EndOfWhileSound(g: Gen)
    requires Sound(g)
    ensures Sound(GenEndOfWhile(g))
  {
    hide PatchDown;
    if g.stack != [] && Top(g.stack).NumberTok? {
      var code := g.code + [OpCell(JmpCode), NumberCell(Top(g.stack).value)];
      if PatchDown(Below(g.stack), code, WhileMark, 0, |code|).Popped? {
        PatchSound(g, GenEndOfWhile(g), |g.stack| - 1, code, WhileMark, 0, |code|);
      }
    }
  }

  lemma EndOfForSound(g: Gen)
    requires Sound(g)
    ensures Sound(GenEndOfFor(g))
  {
    hide PatchDown;
    if |g.stack| >= 2 && Top(g.stack).NumberTok? {
      var code := g.code + [OpCell(JmpCode), NumberCell(Top(g.stack).value)];
      assert Below(Below(g.stack)) == g.stack[..|g.stack| - 2];
      if PatchDown(Below(Below(g.stack)), code, ForMark, 0, |code|).Popped? {
        PatchSound(g, GenEndOfFor(g), |g.stack| - 2, code, ForMark, 0, |code|);
      }
    }
  }

  lemma EndOfDoWhileSound(g: Gen)
    requires Sound(g)
    ensures Sound(GenEndOfDoWhile(g))
  {
    hide PatchDown;
    if |g.stack| >= 2 && Operand(Top(g.stack)) && Top(Below(g.stack)).NumberTok? && Resolved(Top(g.stack)) {
      var code := g.code + [OpCell(JnzCode), NumberCell(Top(Below(g.stack)).value), Symbol(Top(g.stack), g.ids)];
      assert Below(Below(g.stack)) == g.stack[..|g.stack| - 2];
      if PatchDown(Below(Below(g.stack)), code, DoWhileMark, 0, |code|).Popped? {
        PatchSound(g, GenEndOfDoWhile(g), |g.stack| - 2, code, DoWhileMark, 0, |code|);
      }
    }
  }

  lemma OneOperandSound(g: Gen, op: Opcode)
    requires Sound(g)
    ensures Sound(GenOneOperand(g, op))
  {
    hide Symbol, Sound, Release;
    var g' := GenOneOperand(g, op);
    if g'.stack != g.stack {
      assert g'.stack == g.stack[..|g.stack| - 1] + [];
      PopSound(g, g', |g.stack| - 1, []);
    } else {
      StatusSound(g, g');
    }
  }

  lemma ReportSound(g: Gen, r: Report)
    requires Sound(g)
    ensures Sound(GenReport(g, r))
  {
    hide Symbol, Sound, Release;
    var g' := GenReport(g, r);
    if g'.stack != g.stack {
      assert g'.stack == g.stack[..|g.stack| - 1] + [];
      PopSound(g, g', |g.stack| - 1, []);
    } else {
      StatusSound(g, g');
    }
  }

  lemma JzSound(g: Gen)
    requires Sound(g)
    ensures Sound(GenJz(g))
  {
    hide Symbol, Sound, Release;
    var g' := GenJz(g);
    if g'.status == g.status {
      if g.stack != [] && Operand(Top(g.stack)) && Resolved(Top(g.stack)) {
        PopSound(g, g', |g.stack| - 1, [NumberTok(|g.code| + 3)]);
      } else {
        StatusSound(g, g');
      }
    } else {
      StatusSound(g, g');
    }
  }

  lemma JmpToEndSound(g: Gen)
    requires Sound(g)
    ensures Sound(GenJmpToEnd(g))
  {
    hide Sound, Patch;
    var g' := GenJmpToEnd(g);
    if g.stack != [] && Top(g.stack).NumberTok? && Patchable(g.code, Top(g.stack).value - 2) {
      PopSound(g, g', |g.stack| - 1, [NumberTok(|g.code|)]);
    } else {
      StatusSound(g, g');
    }
  }

  lemma ForCommandsSound(g: Gen)
    requires Sound(g)
    ensures Sound(GenStartOfForCommands(g))
  {
    hide Sound, Patch;
    var g' := GenStartOfForCommands(g);
    if g'.stack != g.stack {
      var n := |g.stack| - 2;
      var step := Top(Below(g.stack)).value;
      assert Below(Below(g.stack)) == g.stack[..n];
      PopSound(g, g', n, [NumberTok(step - 4), Mark(IncDecMark), NumberTok(step)]);
    } else {
      StatusSound(g, g');
    }
  }

  /** A rule that only reports a failure changes nothing the invariant speaks of. */
  lemma StatusSound(g: Gen, g': Gen)
    requires Sound(g) && g'.stack == g.stack && g'.temps == g.temps
    ensures Sound(g')
  {
  }

  /** Re-pushing the token below a condition on top of a new address. */
  lemma SwapSound(g: Gen, g': Gen, addr: nat)
    requires Sound(g) && |g.stack| >= 2
    requires g'.stack == g.stack[..|g.stack| - 2] + [NumberTok(addr), g.stack[|g.stack| - 2]]
    requires g'.temps == g.temps || g'.temps == Release(g.temps, Top(g.stack))
    ensures Sound(g')
  {
    var n := |g.stack| - 1;
    SoundRelease(g, n, n);
  }

  lemma WhileCommandsSound(g: Gen)
    requires Sound(g)
    ensures Sound(GenStartOfWhileCommands(g))
  {
    hide Symbol, Sound, Release;
    var g' := GenStartOfWhileCommands(g);
    if |g.stack| >= 2 && Operand(Top(g.stack)) && Resolved(Top(g.stack)) {
      assert Below(Below(g.stack)) == g.stack[..|g.stack| - 2];
      SwapSound(g, g', |g.code| + 1);
    } else {
      StatusSound(g, g');
    }
  }

  lemma ForIncDecSound(g: Gen)
    requires Sound(g)
    ensures Sound(GenForIncDec(g))
  {
    hide Symbol, Sound, Release;
    var g' := GenForIncDec(g);
    if |g.stack| >= 2 && Operand(Top(g.stack)) && Resolved(Top(g.stack)) {
      assert Below(Below(g.stack)) == g.stack[..|g.stack| - 2];
      SwapSound(g, g', |g.code| + 5);
    } else {
      StatusSound(g, g');
    }
  }

  lemma ContinueSound(g: Gen)
    requires Sound(g)
    ensures Sound(GenContinue(g))
  {
    hide AboveIncDec, HasFor;
  }

  lemma StepSound(g: Gen, a: Action)
    requires Sound(g)
    ensures Sound(Step(g, a))
  {
    hide Fire, Sound;
    match a
    case Generate(rule) => FireSound(g, rule);
    case PushNumber(n) => MarkSound(g, [NumberTok(n)]);
    case PushPlace(p) => MarkSound(g, [PlaceTok(p, Known(p, g.ids))]);
    case PushString(t) => MarkSound(g, [StringTok(t)]);
  }

  lemma FireSound(g: Gen, rule: Rule)
    requires Sound(g)
    ensures Sound(Fire(g, rule))
  {
    hide Sound, GenMov, GenUnary, GenBinary, GenPrintf, GenEndOfIf, GenEndOfWhile, GenEndOfDoWhile, GenEndOfFor,
      GenContinue, GenBreak,
      GenOneOperand, GenReport, GenJz, GenJmpToEnd, GenStartOfForCommands, GenStartOfWhileCommands, GenForIncDec;
    match rule
    case Mov => MovSound(g);
    case UnaryRule(op) => UnarySound(g, op);
    case BinaryRule(op) => BinarySound(g, op);
    case PrintfRule => PrintfSound(g);
    case EndOfIf => EndOfIfSound(g);
    case EndOfWhile => EndOfWhileSound(g);
    case EndOfDoWhile => EndOfDoWhileSound(g);
    case EndOfFor => EndOfForSound(g);
    case BreakRule => BreakSound(g);
    case ContinueRule => ContinueSound(g);
    case ForeignRule => ForeignSound(g);
    case Inc => OneOperandSound(g, IncCode);
    case Dec => OneOperandSound(g, DecCode);
    case ReportRule(r) => ReportSound(g, r);
    case Jz => JzSound(g);
    case JmpToEndAndJzCompleted => JmpToEndSound(g);
    case StartOfForCommands => ForCommandsSound(g);
    case StartOfWhileCommands => WhileCommandsSound(g);
    case ForIncDec => ForIncDecSound(g);
    case VargStart => MarkSound(g, [Mark(VargMark)]);
    case StartOfIf => MarkSound(g, [Mark(IfMark)]);
    case StartOfWhile => MarkSound(g, [Mark(WhileMark), NumberTok(|g.code|)]);
    case StartOfDoWhile => MarkSound(g, [Mark(DoWhileMark), NumberTok(|g.code|)]);
    case StartOfFor => MarkSound(g, [Mark(ForMark), NumberTok(|g.code|)]);
  }

  lemma ForeignSound(g: Gen)
    requires Sound(g)
    ensures Sound(Crash(g))
  {
  }

  lemma BreakSound(g: Gen)
    requires Sound(g)
    ensures Sound(GenBreak(g))
  {
    InsertSound(g, |g.code| + 1, g.code + [OpCell(JmpCode), NumberCell(PLACEHOLDER)]);
  }

  lemma MarkSound(g: Gen, more: seq<Token>)
    requires Sound(g) && forall i :: 0 <= i < |more| ==> !more[i].TempTok?
    ensures Sound(g.(stack := g.stack + more))
  {
    assert g.stack[..|g.stack|] == g.stack;
    SoundPrefix(g, |g.stack|, more, g.code, g.ids);
  }

  /** On every run, whatever the rules fired: live temporaries never share a slot. */
  lemma {:induction false} RunSound(g: Gen, acts: seq<Action>)
    requires Sound(g)
    ensures Sound(Run(g, acts))
    decreases |acts|
  {
    hide Sound, Step;
    if acts != [] && g.status.Ok? {
      StepSound(g, acts[0]);
      RunSound(Step(g, acts[0]), acts[1..]);
    }
  }

  /** A new destination is never the slot of an operand still to be read. */
  lemma DestinationIsNew(g: Gen, i: nat)
    requires Sound(g) && i < |g.stack| && g.stack[i].TempTok?
    ensures g.stack[i].id != FirstFree(g.temps)
  {
  }

  // ---------------------------------------------------------------- counting

  function Taken(tm: seq<bool>): (n: nat)
    ensures n <= |tm|
  {
    if tm == [] then 0 else (if tm[0] then 1 else 0) + Taken(tm[1..])
  }

  lemma {:induction false} TakenTake(tm: seq<bool>, d: nat)
    requires d < |tm| && !tm[d]
    ensures Taken(tm[d := true]) == Taken(tm) + 1
  {
    if d == 0 {
      assert tm[d := true][1..] == tm[1..];
    } else {
      assert tm[d := true][1..] == tm[1..][d - 1 := true];
      TakenTake(tm[1..], d - 1);
    }
  }

  lemma {:induction false} FullIffNoneFree(tm: seq<bool>)
    ensures FirstFree(tm) < |tm| <==> Taken(tm) < |tm|
  {
    if tm != [] {
      FullIffNoneFree(tm[1..]);
    }
  }

  function Max(a: nat, b: nat): nat {
    if a < b then b else a
  }

  /** The slots an expression keeps until its value is used. */
  function Held(e: Expr): nat {
    if Leaf(e) then 0 else 1
  }

  /** The most slots an expression has taken at one time. */
  function Peak(e: Expr): nat {
    match e
    case Number(_) => 0
    case Read(_) => 0
    case Unary(_, a) => Max(Peak(a), Held(a) + 1)
    case Binary(_, l, r) => Max(Peak(l), Max(Held(l) + Peak(r), Held(l) + Held(r) + 1))
  }

  lemma PeakHolds(e: Expr)
    ensures Held(e) <= Peak(e)
  {
  }

  lemma ExprTaken(e: Expr, tm: seq<bool>)
    requires ExprFits(e, tm)
    ensures Taken(ExprTemps(e, tm)) == Taken(tm) + Held(e)
  {
    if !Leaf(e) {
      TakenTake(tm, Dest(e, tm));
    }
  }

  /** An expression fits exactly when its peak fits beside the slots already taken. */
  lemma {:induction false} ExprFitsIff(e: Expr, tm: seq<bool>)
    ensures ExprFits(e, tm) <==> Taken(tm) + Peak(e) <= |tm|
    decreases e
  {
    match e
    case Number(_) =>
    case Read(_) =>
    case Unary(_, a) =>
      ExprFitsIff(a, tm);
      if ExprFits(a, tm) {
        ExprTaken(a, tm);
        FullIffNoneFree(ExprTemps(a, tm));
      }
    case Binary(_, l, r) =>
      var tl := ExprTemps(l, tm);
      ExprFitsIff(l, tm);
      if ExprFits(l, tm) {
        ExprTaken(l, tm);
        ExprFitsIff(r, tl);
        if ExprFits(r, tl) {
          ExprTaken(r, tl);
          FullIffNoneFree(ExprTemps(r, tl));
        }
      }
  }
}
