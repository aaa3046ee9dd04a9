/**
 The code generator as it is written: an object whose methods pop and push the
 operand stack, append cells, and search and patch in loops.  Every method is
 proved to do what the corresponding function of module Codegen does.
 */
module Generator {
  import opened Words
  import opened Script
  import opened Codegen

  function Reversed(ts: seq<Token>): (r: seq<Token>)
    ensures |r| == |ts|
  {
    if ts == [] then [] else [Top(ts)] + Reversed(Below(ts))
  }

  lemma PushedReversed(ts: seq<Token>, t: Token)
    ensures Reversed(ts + [t]) == [t] + Reversed(ts)
  {
    assert Below(ts + [t]) == ts;
  }

  lemma StackSplitIf(stack: seq<Token>)
    ensures stack != [] ==> stack == Below(stack) + [Top(stack)]
  {
  }

  lemma {:induction false} FirstFreeIs(temps: seq<bool>, i: nat)
    requires i <= |temps| && (forall j :: 0 <= j < i ==> temps[j]) && (i < |temps| ==> !temps[i])
    ensures FirstFree(temps) == i
  {
  }

  function ReversedCells(cs: seq<Cell>): (r: seq<Cell>)
    ensures |r| == |cs|
  {
    if cs == [] then [] else [cs[|cs| - 1]] + ReversedCells(cs[..|cs| - 1])
  }

  lemma PushedCell(cs: seq<Cell>, c: Cell)
    ensures ReversedCells(cs + [c]) == [c] + ReversedCells(cs)
  {
    assert (cs + [c])[..|cs|] == cs;
  }

  lemma IncDecTop(stack: seq<Token>, t: Token)
    ensures HasFor(stack + [t]) == (t == Mark(IncDecMark) || HasFor(stack))
    ensures AboveIncDec(stack + [t]) == if t == Mark(IncDecMark) then [] else AboveIncDec(stack) + [t]
    ensures stack == [] ==> !HasFor(stack)
  {
    assert Below(stack + [t]) == stack;
  }

  lemma VargTop(stack: seq<Token>, t: Token)
    ensures HasVarg(stack + [t]) == (t == Mark(VargMark) || HasVarg(stack))
    ensures AboveVarg(stack + [t]) == if t == Mark(VargMark) then [] else AboveVarg(stack) + [t]
    ensures stack == [] ==> !HasVarg(stack)
  {
    assert Below(stack + [t]) == stack;
  }

  lemma ReleaseTop(temps: seq<bool>, ts: seq<Token>, t: Token)
    ensures ReleaseAll(temps, []) == temps
    ensures ReleaseAll(temps, ts + [t]) == ReleaseAll(Release(temps, t), ts)
  {
    assert Below(ts + [t]) == ts;
  }

  lemma ReversedFirst(ts: seq<Token>, n: nat)
    requires 0 < n <= |ts|
    ensures Reversed(ts[..n]) == [ts[n - 1]] + Reversed(ts[..n - 1])
    ensures Reversed(ts[..0]) == []
  {
    assert Below(ts[..n]) == ts[..n - 1];
  }

  lemma UndefinedStays(g: Gen, acts: seq<Action>)
    ensures g.status == Undefined ==> Run(g, acts).status == Undefined
  {
  }

  class CodeGenerator {
    var stack: seq<Token>
    var code: seq<Cell>
    const temps: array<bool>
    var ids: seq<string>
    var status: Status

    ghost function State(): Gen
      reads this, temps
    {
      Gen(stack, code, temps[..], ids, status)
    }

    /** The state is `g`; after a failure only the error and the identifier table matter. */
    ghost predicate Follows(g: Gen)
      reads this, temps
    {
      && status == g.status
      && ids == g.ids
      && (status.Ok? ==> State() == g)
    }

    constructor (capacity: nat)
      ensures fresh(temps) && State() == Start(seq(capacity, _ => false), [])
    {
      stack, code, ids, status := [], [], [], Ok;
      temps := new bool[capacity](_ => false);
    }

    // -------------------------------------------------------------- temporaries

    /** Takes the first free slot; with none free the error is set and the token names no slot. */
    method NewTemp() returns (t: Token)
      modifies temps, this`status
      ensures t == TempTok(FirstFree(old(temps[..])))
      ensures temps[..] == Take(old(temps[..]), FirstFree(old(temps[..])))
      ensures status == if FirstFree(old(temps[..])) == temps.Length then Failed(TempListFull) else old(status)
    {
      ghost var before := temps[..];
      var i := 0;
      while i < temps.Length && temps[i]
        invariant i <= temps.Length
        invariant forall j :: 0 <= j < i ==> temps[j]
        invariant temps[..] == before
      {
        i := i + 1;
      }
      FirstFreeIs(before, i);
      if i == temps.Length {
        status := Failed(TempListFull);
      } else {
        temps[i] := true;
      }
      t := TempTok(i);
    }

    method FreeTemp(t: Token)
      modifies temps
      ensures temps[..] == Release(old(temps[..]), t)
    {
      if t.TempTok? && t.id < temps.Length {
        temps[t.id] := false;
      }
    }

    method CleanTempList()
      modifies temps
      ensures temps[..] == seq(temps.Length, _ => false)
    {
      for i := 0 to temps.Length
        invariant forall j :: 0 <= j < i ==> !temps[j]
      {
        temps[i] := false;
      }
    }

    // -------------------------------------------------------------- stack and symbols

    method Pop() returns (t: Token)
      requires stack != []
      modifies this`stack
      ensures t == Top(old(stack)) && stack == Below(old(stack))
    {
      t := stack[|stack| - 1];
      stack := stack[..|stack| - 1];
    }

    /** The cell of an operand; an unresolved variable sets the error. */
    method ToSymbol(t: Token) returns (c: Cell)
      requires Operand(t)
      modifies this`status
      ensures c == Symbol(t, ids)
      ensures status == if Resolved(t) then old(status) else Failed(UnresolvedVariable)
    {
      c := Symbol(t, ids);
      if t.PlaceTok? && !t.resolved {
        status := Failed(UnresolvedVariable);
      }
    }

    // -------------------------------------------------------------- rules without loops

    method Mov()
      requires status.Ok? && GenMov(State()).status != Undefined
      modifies this, temps
      ensures Follows(GenMov(old(State())))
    {
      hide Release;
      code := code + [OpCell(MovCode)];
      var src := Pop();
      var from := ToSymbol(src);
      var dst := Pop();
      var into;
      if dst.PlaceTok? && !dst.resolved && dst.place.Variable? {
        into := if dst.place.kind == Global then GlobalCell(|ids|) else LocalCell(|ids|);
        ids := ids + [dst.place.name];
      } else {
        into := ToSymbol(dst);
      }
      code := code + [from];
      code := code + [into];
      FreeTemp(src);
      FreeTemp(dst);
    }

    method OneOperand(op: Opcode)
      requires status.Ok? && GenOneOperand(State(), op).status != Undefined
      modifies this, temps
      ensures Follows(GenOneOperand(old(State()), op))
    {
      code := code + [OpCell(op)];
      var a := Pop();
      var c := ToSymbol(a);
      code := code + [c];
      FreeTemp(a);
    }

    method ReportOperand(r: Report)
      requires status.Ok? && GenReport(State(), r).status != Undefined
      modifies this, temps
      ensures Follows(GenReport(old(State()), r))
    {
      code := code + [OpCell(ReportCode(r))];
      var a := Pop();
      var c := ToSymbol(a);
      code := code + [c];
    }

    method UnaryOperator(op: UnaryOp)
      requires status.Ok? && GenUnary(State(), op).status != Undefined
      modifies this, temps
      ensures Follows(GenUnary(old(State()), op))
    {
      code := code + [OpCell(UnaryCode(op))];
      var a := Pop();
      var c := ToSymbol(a);
      code := code + [c];
      var t := NewTemp();
      stack := stack + [t];
      code := code + [TempCell(t.id)];
      FreeTemp(a);
    }

    method BinaryOperator(op: BinaryOp)
      requires status.Ok? && GenBinary(State(), op).status != Undefined
      modifies this, temps
      ensures Follows(GenBinary(old(State()), op))
    {
      hide Symbol, Operand, Resolved, Release, Take;
      code := code + [OpCell(BinaryCode(op))];
      var a := Pop();
      var ca := ToSymbol(a);
      var b := Pop();
      var cb := ToSymbol(b);
      var t := NewTemp();
      stack := stack + [t];
      code := code + [ca];
      code := code + [cb];
      code := code + [TempCell(t.id)];
      FreeTemp(a);
      FreeTemp(b);
    }

    method JumpIfZero()
      requires status.Ok? && GenJz(State()).status != Undefined
      modifies this, temps
      ensures Follows(GenJz(old(State())))
    {
      code := code + [OpCell(JzCode)];
      code := code + [NumberCell(PLACEHOLDER)];
      var a := Pop();
      var c := ToSymbol(a);
      code := code + [c];
      stack := stack + [NumberTok(|code|)];
      FreeTemp(a);
    }

    method JumpToEnd()
      requires status.Ok? && GenJmpToEnd(State()).status != Undefined
      modifies this
      ensures Follows(GenJmpToEnd(old(State())))
    {
      var current := |code|;
      var saved := Pop();
      code := code[saved.value - 2 := NumberCell(current + 2)];
      code := code + [OpCell(JmpCode)];
      code := code + [NumberCell(PLACEHOLDER)];
      stack := stack + [NumberTok(current)];
    }

    method StartOfWhileCommands()
      requires status.Ok? && GenStartOfWhileCommands(State()).status != Undefined
      modifies this, temps
      ensures Follows(GenStartOfWhileCommands(old(State())))
    {
      var current := |code|;
      var a := Pop();
      var c := ToSymbol(a);
      var start := Pop();
      stack := stack + [NumberTok(current + 1)];
      stack := stack + [start];
      code := code + [OpCell(JzCode)];
      code := code + [NumberCell(PLACEHOLDER)];
      code := code + [c];
      FreeTemp(a);
    }

    method ForIncDec()
      requires status.Ok? && GenForIncDec(State()).status != Undefined
      modifies this, temps
      ensures Follows(GenForIncDec(old(State())))
    {
      code := code + [OpCell(JzCode)];
      code := code + [NumberCell(PLACEHOLDER)];
      var a := Pop();
      var c := ToSymbol(a);
      code := code + [c];
      if !status.Ok? {
        return;
      }
      code := code + [OpCell(JmpCode)];
      code := code + [NumberCell(PLACEHOLDER)];
      var start := Pop();
      stack := stack + [NumberTok(|code|)];
      stack := stack + [start];
    }

    method StartOfForCommands()
      requires status.Ok? && GenStartOfForCommands(State()).status != Undefined
      modifies this
      ensures Follows(GenStartOfForCommands(old(State())))
    {
      code := code + [OpCell(JmpCode)];
      var start := Pop();
      code := code + [NumberCell(start.value)];
      var current := |code|;
      var step := Pop();
      code := code[step.value - 1 := NumberCell(current)];
      stack := stack + [NumberTok(step.value - 4)];
      stack := stack + [Mark(IncDecMark)];
      stack := stack + [step];
    }

    // -------------------------------------------------------------- rules with loops

    /** Pops down to `mark`, pointing each saved jump at `target`. */
    method CloseJumps(mark: Marker, offset: nat, target: nat)
      requires PatchDown(stack, code, mark, offset, target).Popped?
      modifies this`stack, this`code
      ensures Popped(stack, code) == PatchDown(old(stack), old(code), mark, offset, target)
    {
      var t := Pop();
      while t != Mark(mark)
        invariant PatchDown(stack + [t], code, mark, offset, target) ==
          PatchDown(old(stack), old(code), mark, offset, target)
        decreases |stack|
      {
        assert Below(stack + [t]) == stack;
        code := code[t.value + offset := NumberCell(target)];
        StackSplitIf(stack);
        t := Pop();
      }
      assert Below(stack + [t]) == stack;
    }

    method EndOfIf()
      requires status.Ok? && GenEndOfIf(State()).status != Undefined
      modifies this
      ensures Follows(GenEndOfIf(old(State())))
    {
      CloseJumps(IfMark, 1, |code|);
    }

    method EndOfWhile()
      requires status.Ok? && GenEndOfWhile(State()).status != Undefined
      modifies this
      ensures Follows(GenEndOfWhile(old(State())))
    {
      ghost var before := code;
      code := code + [OpCell(JmpCode)];
      var start := Pop();
      code := code + [NumberCell(start.value)];
      assert code == before + [OpCell(JmpCode), NumberCell(start.value)];
      CloseJumps(WhileMark, 0, |code|);
    }

    method EndOfDoWhile()
      requires status.Ok? && GenEndOfDoWhile(State()).status != Undefined
      modifies this, temps
      ensures Follows(GenEndOfDoWhile(old(State())))
    {
      ghost var before := code;
      code := code + [OpCell(JnzCode)];
      var a := Pop();
      var c := ToSymbol(a);
      var start := Pop();
      code := code + [NumberCell(start.value)];
      code := code + [c];
      assert code == before + [OpCell(JnzCode), NumberCell(start.value), c];
      FreeTemp(a);
      if status.Ok? {
        CloseJumps(DoWhileMark, 0, |code|);
      }
    }

    method EndOfFor()
      requires status.Ok? && GenEndOfFor(State()).status != Undefined
      modifies this
      ensures Follows(GenEndOfFor(old(State())))
    {
      ghost var before := code;
      code := code + [OpCell(JmpCode)];
      var step := Pop();
      code := code + [NumberCell(step.value)];
      assert code == before + [OpCell(JmpCode), NumberCell(step.value)];
      var _ := Pop();
      CloseJumps(ForMark, 0, |code|);
    }

    /** Sets tokens aside until the innermost loop marker, or the bottom of the stack, is popped. */
    method AsideToLoop(ghost extra: seq<Token>) returns (t: Token, aside: seq<Token>)
      requires stack != []
      modifies this`stack
      ensures LoopMark(t) == HasLoop(old(stack))
      ensures LoopMark(t) ==> stack + [t] + extra + Reversed(aside) == Insert(old(stack), extra)
      ensures aside == [] ==> stack + [t] == old(stack)
    {
      aside := [];
      StackSplitIf(stack);
      t := Pop();
      while !LoopMark(t) && stack != []
        invariant HasLoop(stack + [t]) == HasLoop(old(stack))
        invariant Insert(stack + [t], extra) + Reversed(aside) == Insert(old(stack), extra)
        invariant aside == [] ==> stack + [t] == old(stack)
        decreases |stack|
      {
        assert Below(stack + [t]) == stack;
        StackSplitIf(stack);
        PushedReversed(aside, t);
        aside := aside + [t];
        t := Pop();
      }
      assert Below(stack + [t]) == stack;
    }

    /** Sets tokens aside until the innermost @INC_DEC, or the bottom of the stack, is popped. */
    method AsideToIncDec() returns (t: Token, aside: seq<Token>)
      requires stack != []
      modifies this`stack
      ensures (t == Mark(IncDecMark)) == HasFor(old(stack))
      ensures t == Mark(IncDecMark) ==> Reversed(aside) == AboveIncDec(old(stack))
      ensures stack + [t] + Reversed(aside) == old(stack)
    {
      hide HasFor, AboveIncDec, Reversed;
      aside := [];
      StackSplitIf(stack);
      t := Pop();
      while t != Mark(IncDecMark) && stack != []
        invariant HasFor(stack + [t]) == HasFor(old(stack))
        invariant AboveIncDec(stack + [t]) + Reversed(aside) == AboveIncDec(old(stack))
        invariant stack + [t] + Reversed(aside) == old(stack)
        decreases |stack|
      {
        IncDecTop(stack, t);
        StackSplitIf(stack);
        PushedReversed(aside, t);
        assert AboveIncDec(stack) + Reversed(aside + [t]) == AboveIncDec(stack + [t]) + Reversed(aside);
        aside := aside + [t];
        t := Pop();
      }
      IncDecTop(stack, t);
    }

    /**
     Pushes back what is left of the tokens set aside, last first.  The loop runs
     at least once: a list already emptied yields its first slot once more.
     */
    method PushBack(aside: seq<Token>, left: nat)
      requires left <= |aside| && aside != []
      modifies this`stack
      ensures stack == old(stack) + (if left == 0 then [aside[0]] else Reversed(aside[..left]))
    {
      hide Reversed;
      var n := if left > 0 then left - 1 else left;
      ReversedFirst(aside, n + 1);
      stack := stack + [aside[n]];
      while n != 0
        invariant n < |aside|
        invariant stack + Reversed(aside[..n]) == old(stack)
          + (if left == 0 then [aside[0]] else Reversed(aside[..left]))
      {
        ReversedFirst(aside, n);
        n := n - 1;
        stack := stack + [aside[n]];
      }
    }

    method BreakLoop()
      requires status.Ok? && GenBreak(State()).status != Undefined
      modifies this
      ensures Follows(GenBreak(old(State())))
    {
      hide HasLoop, Insert;
      ghost var extra := [NumberTok(|code| + 1)];
      var t, aside := AsideToLoop(extra);
      if LoopMark(t) {
        stack := stack + [t];
        stack := stack + [NumberTok(|code| + 1)];
        code := code + [OpCell(JmpCode)];
        code := code + [NumberCell(PLACEHOLDER)];
        assert aside[..|aside|] == aside;
        PushBack(aside, |aside|);
      } else {
        status := Failed(Syntax);
      }
    }

    method ContinueLoop()
      requires status.Ok? && GenContinue(State()).status != Undefined
      modifies this
      ensures Follows(GenContinue(old(State())))
    {
      hide HasFor, AboveIncDec;
      var t, aside := AsideToIncDec();
      if t == Mark(IncDecMark) {
        stack := stack + [t];
        code := code + [OpCell(JmpCode)];
        var n := |aside| - 1;
        var saved := aside[n];
        assert Reversed(aside) == [saved] + Reversed(aside[..n]);
        stack := stack + [saved];
        code := code + [NumberCell(saved.value)];
        PushBack(aside, n);
      } else {
        status := Failed(Syntax);
      }
    }

    // -------------------------------------------------------------- printf

    /** Pops the arguments down to @VARGSTART; their cells come out last argument first. */
    method PopArguments() returns (cells: seq<Cell>, ghost args: seq<Token>)
      requires status.Ok? && HasVarg(stack) && forall t :: t in AboveVarg(stack) ==> Operand(t)
      modifies this`stack, this`status, temps
      ensures args == AboveVarg(old(stack))
      ensures status == if forall t :: t in args ==> Resolved(t) then Ok else Failed(UnresolvedVariable)
      ensures status.Ok? ==>
              && stack + [Mark(VargMark)] + args == old(stack)
              && ReversedCells(cells) == SymbolsOf(args, ids)
              && temps[..] == ReleaseAll(old(temps[..]), args)
    {
      hide HasVarg, AboveVarg, ReleaseAll, Symbol, Operand, Release;
      cells, args := [], [];
      ghost var all := AboveVarg(stack);
      StackSplitIf(stack);
      var t := Pop();
      while t != Mark(VargMark)
        invariant status.Ok?
        invariant HasVarg(stack + [t])
        invariant AboveVarg(stack + [t]) + args == all
        invariant stack + [t] + args == old(stack)
        invariant forall t :: t in args ==> Resolved(t)
        invariant ReversedCells(cells) == SymbolsOf(args, ids)
        invariant ReleaseAll(temps[..], AboveVarg(stack + [t])) == ReleaseAll(old(temps[..]), all)
        decreases |stack|
      {
        VargTop(stack, t);
        assert all[|AboveVarg(stack)|] == t;
        var c := ToSymbol(t);
        ReleaseTop(temps[..], AboveVarg(stack), t);
        FreeTemp(t);
        PushedCell(cells, c);
        cells := cells + [c];
        args := [t] + args;
        if !status.Ok? {
          args := all;
          return;
        }
        StackSplitIf(stack);
        t := Pop();
      }
      VargTop(stack, t);
      ReleaseTop(temps[..], [], t);
    }

    /** Counts conversion specifications, giving up at the first one without an argument. */
    method MatchFormat(format: string, count: nat)
      requires status.Ok?
      modifies this`status
      ensures status == if Specifiers(format) == count then Ok else Failed(Syntax)
    {
      var used, at := 0, 0;
      while at < |format|
        invariant at <= |format| && used <= count && status.Ok?
        invariant used + Specifiers(format[at..]) == Specifiers(format)
      {
        assert format[at..][1..] == format[at + 1..];
        if SpecifierAt(format[at..]) {
          if used == count {
            status := Failed(Syntax);
            return;
          }
          used := used + 1;
        }
        at := at + 1;
      }
      if used != count {
        status := Failed(Syntax);
      }
    }

    method Printf()
      requires status.Ok? && GenPrintf(State()).status != Undefined
      modifies this, temps
      ensures Follows(GenPrintf(old(State())))
    {
      hide HasVarg, AboveVarg, SymbolsOf, ReleaseAll, Specifiers, TextCells;
      ghost var before := State();
      code := code + [OpCell(PrintfCode)];
      var cells, args := PopArguments();
      if !status.Ok? {
        return;
      }
      ghost var n := |before.stack| - |args|;
      assert stack == before.stack[..n - 1];
      var format := Pop();
      assert stack == before.stack[..n - 2];
      code := code + TextCells(format.text);
      code := code + [CountCell(|cells|)];
      code := code + ReversedCells(cells);
      MatchFormat(format.text, |cells|);
    }

    // -------------------------------------------------------------- the dispatcher and a whole script

    /** `CodeGen`: whenever the rule's effect is defined, that effect is what happens. */
    method CodeGen(rule: Rule)
      requires status.Ok? && Fire(State(), rule).status != Undefined
      modifies this, temps
      ensures Follows(Fire(old(State()), rule))
    {
      hide GenMov, GenOneOperand, GenUnary, GenBinary, GenReport, GenPrintf, GenJz, GenJmpToEnd, GenEndOfIf,
           GenStartOfWhileCommands, GenEndOfWhile, GenEndOfDoWhile, GenForIncDec, GenStartOfForCommands, GenEndOfFor,
           GenBreak, GenContinue;
      match rule
      case Mov => Mov();
      case Inc => OneOperand(IncCode);
      case Dec => OneOperand(DecCode);
      case UnaryRule(op) => UnaryOperator(op);
      case BinaryRule(op) => BinaryOperator(op);
      case ReportRule(r) => ReportOperand(r);
      case VargStart => stack := stack + [Mark(VargMark)];
      case PrintfRule => Printf();
      case StartOfIf => stack := stack + [Mark(IfMark)];
      case Jz => JumpIfZero();
      case JmpToEndAndJzCompleted => JumpToEnd();
      case EndOfIf => EndOfIf();
      case StartOfWhile => StartOfLoop(WhileMark);
      case StartOfWhileCommands => StartOfWhileCommands();
      case EndOfWhile => EndOfWhile();
      case StartOfDoWhile => StartOfLoop(DoWhileMark);
      case EndOfDoWhile => EndOfDoWhile();
      case StartOfFor => StartOfLoop(ForMark);
      case ForIncDec => ForIncDec();
      case StartOfForCommands => StartOfForCommands();
      case EndOfFor => EndOfFor();
      case BreakRule => BreakLoop();
      case ContinueRule => ContinueLoop();
      case ForeignRule => assert false;
    }

    method StartOfLoop(m: Marker)
      modifies this`stack
      ensures State() == GenStartOfLoop(old(State()), m)
    {
      stack := stack + [Mark(m)];
      stack := stack + [NumberTok(|code|)];
    }

    method Act(a: Action)
      requires status.Ok? && Step(State(), a).status != Undefined
      modifies this, temps
      ensures Follows(Step(old(State()), a))
    {
      hide Fire;
      match a
      case PushNumber(n) => stack := stack + [NumberTok(n)];
      case PushPlace(p) => stack := stack + [PlaceTok(p, Known(p, ids))];
      case PushString(text) => stack := stack + [StringTok(text)];
      case Generate(rule) => CodeGen(rule);
    }

    /** Runs the actions of a script from an empty stack and code buffer; after an error the temporaries are cleaned. */
    method Parse(acts: seq<Action>)
      requires Run(Start(temps[..], ids), acts).status != Undefined
      modifies this, temps
      ensures
        var g := Run(Start(old(temps[..]), old(ids)), acts);
        && status == g.status && ids == g.ids
        && (status.Ok? ==> State() == g)
        && (!status.Ok? ==> temps[..] == seq(temps.Length, _ => false))
    {
      hide Step;
      stack, code, status := [], [], Ok;
      ghost var g := Run(State(), acts);
      var i := 0;
      while i < |acts| && status.Ok?
        invariant i <= |acts|
        invariant if status.Ok? then Run(State(), acts[i..]) == g else status == g.status && ids == g.ids
        decreases |acts| - i
      {
        assert acts[i..][0] == acts[i] && acts[i..][1..] == acts[i + 1..];
        ghost var next := Step(State(), acts[i]);
        UndefinedStays(next, acts[i + 1..]);
        Act(acts[i]);
        if !status.Ok? {
          RunStops(next, acts[i + 1..]);
        }
        i := i + 1;
      }
      if !status.Ok? {
        CleanTempList();
      }
    }
  }
}
