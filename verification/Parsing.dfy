/**
 From accepted tokens to values: the parse trees of an expression grammar read as
 expressions, and the driver in the form of the source, with its two loops.
 */
module Parsing {
  import opened Words
  import opened Script
  import opened Codegen
  import opened Layout
  import opened Refinement
  import opened Machine
  import opened Semantics
  import opened Preservation
  import opened Lalr
  import opened Generator

  // ---------------------------------------------------------------- trees as expressions

  function OperandExpr(w: Word): Option<Expr> {
    match w.operand
    case Some(NumberOperand(n)) => Some(Number(n))
    case Some(PlaceOperand(p)) => Some(Read(p))
    case None => None
  }

  /** The expression a parse tree stands for; brackets, chains and unary plus leave no trace. */
  function ExprOf(t: Tables, tree: Tree): Option<Expr>
    decreases tree
  {
    match tree
    case Tip(_) => None
    case Node(p, children) =>
      if p >= |t.productions| then None
      else
        match t.productions[p].effect
        case PushOperands => if |children| == 1 && children[0].Tip? then OperandExpr(children[0].word) else None
        case Nothing => (match ExprsOf(t,
            children) case Some(es) => (if |es| == 1 then Some(es[0]) else None) case None => None)
        case Fires(UnaryRule(op)) =>
          (match ExprsOf(t, children) case Some(es) => (if |es| == 1 then Some(Unary(op, es[0]))
              else None) case None => None)
        case Fires(BinaryRule(op)) =>
          (match ExprsOf(t, children) case Some(es) => (if |es| == 2 then Some(Binary(op, es[0], es[1]))
              else None) case None => None)
        case _ => None
  }

  /** The expressions of the children that are no tokens, from left to right. */
  function ExprsOf(t: Tables, trees: seq<Tree>): Option<seq<Expr>>
    decreases trees
  {
    if trees == [] then Some([])
    else
      var last := trees[|trees| - 1];
      match ExprsOf(t, trees[..|trees| - 1])
      case None => None
      case Some(es) =>
        if last.Tip? then Some(es)
        else (match ExprOf(t, last) case Some(e) => Some(es + [e]) case None => None)
  }

  function NonTerminals(rhs: seq<Sym>): nat {
    if rhs == [] then 0 else NonTerminals(rhs[..|rhs| - 1]) + (if rhs[|rhs| - 1].NonTerminal? then 1 else 0)
  }

  /** The rows of an expression grammar: an operator has as many subexpressions as operands. */
  predicate Shaped(p: Production) {
    match p.effect
    case PushOperands => |p.rhs| == 1 && p.rhs[0].Terminal?
    case Nothing => NonTerminals(p.rhs) == 1
    case Fires(UnaryRule(_)) => NonTerminals(p.rhs) == 1
    case Fires(BinaryRule(_)) => NonTerminals(p.rhs) == 2
    case _ => false
  }

  /** A tree of such rows only, whose operands are operands of the model. */
  predicate PlainTree(t: Tables, tree: Tree)
    decreases tree
  {
    match tree
    case Tip(_) => true
    case Node(p, children) =>
      && p < |t.productions| && Shaped(t.productions[p])
      && (t.productions[p].effect.PushOperands? ==>
          |children| == 1 && children[0].Tip? && OperandExpr(children[0].word).Some?)
      && forall c :: c in children ==> PlainTree(t, c)
  }

  function ExprsActions(es: seq<Expr>): seq<Action> {
    if es == [] then [] else ExprsActions(es[..|es| - 1]) + ExprActions(es[|es| - 1])
  }

  lemma ExprsActionsSnoc(es: seq<Expr>, e: Expr)
    ensures ExprsActions([]) == [] && ExprsActions(es + [e]) == ExprsActions(es) + ExprActions(e)
  {
    assert (es + [e])[..|es|] == es;
  }

  lemma NonTerminalsSnoc(rhs: seq<Sym>, x: Sym)
    ensures NonTerminals([]) == 0 && NonTerminals(rhs + [x]) == NonTerminals(rhs) + (if x.NonTerminal? then 1 else 0)
  {
    assert (rhs + [x])[..|rhs|] == rhs;
  }

  /** The actions of a tree are those of the expression it stands for. */
  lemma {:induction false} TreeIsExpression(t: Tables, tree: Tree)
    requires ExprOf(t, tree).Some?
    ensures Postorder(t, tree) == ExprActions(ExprOf(t, tree).value)
    decreases tree, 1
  {
    hide ExprsOf, Postorders, OperandExpr, ExprsActions, TipOperands;
    var prod := t.productions[tree.production];
    if prod.effect.PushOperands? {
      LeafIsExpression(t, tree.production, tree.children[0]);
      assert tree.children == [tree.children[0]];
    } else {
      ChildrenAreExpressions(t, tree.children);
      var es := ExprsOf(t, tree.children).value;
      if |es| == 1 {
        ExprsActionsSnoc([], es[0]);
        assert es == [] + [es[0]] && [] + ExprActions(es[0]) == ExprActions(es[0]);
        assert ExprActions(es[0]) + [] == ExprActions(es[0]);
      } else {
        ExprsActionsSnoc([], es[0]);
        ExprsActionsSnoc([es[0]], es[1]);
        assert es == [es[0]] + [es[1]] && [es[0]] == [] + [es[0]] && [] + ExprActions(es[0]) == ExprActions(es[0]);
      }
    }
  }

  lemma LeafIsExpression(t: Tables, p: nat, tip: Tree)
    requires p < |t.productions| && t.productions[p].effect.PushOperands?
    requires tip.Tip? && OperandExpr(tip.word).Some?
    ensures Postorder(t, Node(p, [tip])) == ExprActions(OperandExpr(tip.word).value)
  {
    hide Postorders, TipOperands;
    assert [tip] == [] + [tip];
    PostordersSnoc(t, [], tip);
    TipOperandsSnoc([], tip);
  }

  lemma {:induction false} ChildrenAreExpressions(t: Tables, trees: seq<Tree>)
    requires ExprsOf(t, trees).Some?
    ensures Postorders(t, trees) == ExprsActions(ExprsOf(t, trees).value)
    decreases trees, 0
  {
    hide ExprsActions, Postorders, ExprOf;
    if trees == [] {
      ExprsActionsSnoc([], Number(0));
      PostordersSnoc(t, [], Tip(Word(0, None)));
    } else {
      var front, last := trees[..|trees| - 1], trees[|trees| - 1];
      assert trees == front + [last];
      PostordersSnoc(t, front, last);
      ChildrenAreExpressions(t, front);
      if last.Tip? {
        assert Postorders(t, front) + [] == Postorders(t, front);
      } else {
        TreeIsExpression(t, last);
        ExprsActionsSnoc(ExprsOf(t, front).value, ExprOf(t, last).value);
      }
    }
  }

  /** A tree of expression rows stands for an expression. */
  lemma {:induction false} PlainTreeReads(t: Tables, tree: Tree)
    requires Fits(t, tree) && PlainTree(t, tree) && tree.Node?
    ensures ExprOf(t, tree).Some?
    decreases tree, 1
  {
    hide ExprsOf, NonTerminals, OperandExpr;
    if !t.productions[tree.production].effect.PushOperands? {
      PlainTreesRead(t, tree.children);
    }
  }

  lemma {:induction false} PlainTreesRead(t: Tables, trees: seq<Tree>)
    requires forall c :: c in trees ==> Fits(t, c) && PlainTree(t, c)
    ensures ExprsOf(t, trees).Some?
    ensures |ExprsOf(t, trees).value| == NonTerminals(Roots(t, trees))
    decreases trees, 0
  {
    hide Fits, PlainTree, NonTerminals, ExprOf;
    if trees == [] {
      NonTerminalsSnoc([], Terminal(0));
      assert Roots(t, trees) == [];
    } else {
      var front, last := trees[..|trees| - 1], trees[|trees| - 1];
      assert Roots(t, trees) == Roots(t, front) + [Root(t, last)];
      NonTerminalsSnoc(Roots(t, front), Root(t, last));
      PlainTreesRead(t, front);
      if last.Node? {
        PlainTreeReads(t, last);
      }
    }
  }

  /** What an accepted input stands for, and that the generator has compiled just that. */
  lemma AcceptedIsExpression(t: Tables, notes: seq<Note>, g0: Gen, words: seq<Word>, n: nat) returns (tree: Tree)
    requires Coherent(t, notes) && Scanned(t, words) && g0.status.Ok?
    requires Drive(t, Begin(words, g0), n).outcome.Accepted?
    ensures Fits(t, tree) && Root(t, tree) == NonTerminal(t.start) && Yield(tree) == words
    ensures Drive(t, Begin(words, g0), n).gen.status.Ok?
    ensures ExprOf(t, tree).Some? ==> Drive(t, Begin(words, g0), n).gen == Run(g0, ExprActions(ExprOf(t, tree).value))
    ensures PlainTree(t, tree) ==> ExprOf(t, tree).Some?
  {
    hide Coherent, Scanned, Drive, Run, Fits, Postorder, ExprOf, PlainTree;
    tree := DriverSound(t, notes, g0, words, n);
    if ExprOf(t, tree).Some? {
      TreeIsExpression(t, tree);
    }
    if PlainTree(t, tree) {
      PlainTreeReads(t, tree);
    }
  }

  lemma ReadOk(e: Expr, tm: seq<bool>, ids: seq<string>)
    requires e.Read? && Resolved(ExprToken(e, tm, ids))
    ensures ExprOk(e, tm, ids)
  {
  }

  /**
   The value of accepted text: running the cells emitted for it leaves the value
   of the expression it stands for in the operand on top of the stack, and changes
   neither a variable nor a temporary that was live before; or it stops at a
   division by zero.
   */
  lemma AcceptedEvaluates(t: Tables, notes: seq<Note>, g0: Gen, words: seq<Word>, n: nat, vm: Vm, st: State)
    returns (tree: Tree, steps: nat)
    requires Coherent(t, notes) && Scanned(t, words) && g0.status.Ok?
    requires Drive(t, Begin(words, g0), n).outcome.Accepted?
    requires var g := Drive(t, Begin(words, g0), n).gen; g.stack != [] && Resolved(Top(g.stack))
    requires |g0.temps| == MAX_TEMP_COUNT && vm.idx == |g0.code| && Preservation.Ready(vm, st, g0.ids)
    ensures Fits(t, tree) && Root(t, tree) == NonTerminal(t.start) && Yield(tree) == words
    ensures PlainTree(t, tree) ==> ExprOf(t, tree).Some?
    ensures ExprOf(t, tree).Some? ==>
            ValueLeft(g0, Drive(t, Begin(words, g0), n).gen, vm, steps, Eval(ExprOf(t, tree).value, st))
  {
    hide Coherent, Scanned, Drive, Run, Fits, Postorder, ExprOf, PlainTree, Agree, RunFor, Eval, ExprCode, ExprFits,
      ExprKnown,
      ExprTemps;
    tree := AcceptedIsExpression(t, notes, g0, words, n);
    steps := 0;
    if ExprOf(t, tree).Some? {
      var g, e := Drive(t, Begin(words, g0), n).gen, ExprOf(t, tree).value;
      ExprGenerates(g0, e);
      assert ExprOk(e, g0.temps, g0.ids) by {
        if e.Read? {
          ReadOk(e, g0.temps, g0.ids);
        }
      }
      steps := ExprRuns(g.code, vm, st, e, g0.temps, g0.ids, g0.ids);
    }
  }

  /** The cells added to `g0` have run: the operand now on top reads as `value`, or the division was reported. */
  predicate ValueLeft(g0: Gen, g: Gen, vm: Vm, steps: nat, value: Option<u64>) {
    var vm' := RunFor(g.code, vm, steps);
    match value
    case Some(v) =>
      && g.stack != [] && g.stack == g0.stack + [Top(g.stack)]
      && OnlyTemps(vm, vm', |g.code|, g0.temps)
      && GetValue(vm', Symbol(Top(g.stack), g.ids)) == Some(v)
    case None => vm'.fault == DivideByZero
  }

  // ---------------------------------------------------------------- grammars of expression rows only

  predicate Plain(t: Tables) {
    forall p :: p in t.productions ==> Shaped(p)
  }

  predicate Pushes(p: Production, w: Word) {
    p.effect.PushOperands? && w.terminal >= 0 && p.rhs == [Terminal(w.terminal)]
  }

  /** The terminals of the @PUSH rows are operands. */
  predicate OperandWords(t: Tables, words: seq<Word>) {
    forall w, p :: w in words && p in t.productions && Pushes(p, w) ==> OperandExpr(w).Some?
  }

  lemma {:induction false} FittingIsPlain(t: Tables, tree: Tree, words: seq<Word>)
    requires Plain(t) && OperandWords(t, words) && Fits(t, tree) && forall w :: w in Yield(tree) ==> w in words
    ensures PlainTree(t, tree)
    decreases tree
  {
    hide OperandWords, OperandExpr, NonTerminals, Yields;
    if tree.Node? {
      var prod := t.productions[tree.production];
      assert Shaped(prod);
      forall c | c in tree.children ensures PlainTree(t, c) {
        ChildYields(tree.children, c);
        FittingIsPlain(t, c, words);
      }
      if prod.effect.PushOperands? {
        var tip := tree.children[0];
        assert Roots(t, tree.children)[0] == Root(t, tip) && tip in tree.children;
        ChildYields(tree.children, tip);
        assert tip.word in Yield(tip);
        PushedOperand(t, words, prod, tip.word);
      }
    }
  }

  lemma PushedOperand(t: Tables, words: seq<Word>, p: Production, w: Word)
    requires OperandWords(t, words) && p in t.productions && w in words && Pushes(p, w)
    ensures OperandExpr(w).Some?
  {
  }

  lemma {:induction false} ChildYields(trees: seq<Tree>, c: Tree)
    requires c in trees
    ensures forall w :: w in Yield(c) ==> w in Yields(trees)
    decreases |trees|
  {
    hide Yields, Yield;
    var front, last := trees[..|trees| - 1], trees[|trees| - 1];
    assert trees == front + [last];
    YieldsSnoc(front, last);
    if c != last {
      ChildYields(front, c);
    }
  }

  /** On such a grammar the generator always finds the operands it pops. */
  lemma NeverUndefined(t: Tables, notes: seq<Note>, g0: Gen, words: seq<Word>, n: nat)
    requires Coherent(t, notes) && Scanned(t, words) && Plain(t) && OperandWords(t, words) && g0.status.Ok?
    ensures Drive(t, Begin(words, g0), n).gen.status != Undefined
  {
    hide Coherent, Scanned, Plain, OperandWords, Drive, Run, Fits, PlainTree, Yields, Yield;
    BeginExplained(t, notes, g0, words);
    var trees := RunKeeps(t, notes, g0, words, Begin(words, g0), [], n);
    assert forall w :: w in Yields(trees) ==> w in Yields(trees) + Drive(t, Begin(words, g0), n).input;
    forall c | c in trees ensures PlainTree(t, c) {
      ChildYields(trees, c);
      FittingIsPlain(t, c, words);
    }
    ForestDefined(t, trees, g0);
  }

  lemma {:induction false} ForestDefined(t: Tables, trees: seq<Tree>, g: Gen)
    requires g.status.Ok? && forall c :: c in trees ==> Fits(t, c) && PlainTree(t, c)
    ensures Run(g, Postorders(t, trees)).status != Undefined
    decreases |trees|
  {
    hide Run, Postorders, Postorder, Fits, PlainTree, ExprOf;
    if trees == [] {
      PostordersSnoc(t, [], Tip(Word(0, None)));
      RunNothing(g);
    } else {
      var front, last := trees[..|trees| - 1], trees[|trees| - 1];
      assert trees == front + [last] && last in trees;
      PostordersSnoc(t, front, last);
      ForestDefined(t, front, g);
      var acts := Postorders(t, front);
      RunAppend(g, acts, Postorder(t, last));
      var g' := Run(g, acts);
      if !g'.status.Ok? {
        RunStops(g', Postorder(t, last));
      } else if last.Tip? {
        TipNothing(t, last);
        RunNothing(g');
      } else {
        PlainTreeReads(t, last);
        TreeIsExpression(t, last);
        ExprGenerates(g', ExprOf(t, last).value);
      }
    }
  }

  lemma TipNothing(t: Tables, tree: Tree)
    requires tree.Tip?
    ensures Postorder(t, tree) == []
  {
  }

  // ---------------------------------------------------------------- the driver as it is written

  lemma {:induction false} DriveMore(t: Tables, d: Driver, n: nat)
    ensures Drive(t, d, n + 1) == if Drive(t, d, n).outcome.Running? then Advance(t, Drive(t, d, n)) else Drive(t, d, n)
    decreases n
  {
    hide Advance;
    if n == 0 {
      assert Drive(t, Advance(t, d), 0) == Advance(t, d);
    } else if d.outcome.Running? {
      DriveMore(t, Advance(t, d), n - 1);
    }
  }

  lemma {:induction false} DriveStopped(t: Tables, d: Driver, m: nat, n: nat)
    requires m <= n && !Drive(t, d, m).outcome.Running?
    ensures Drive(t, d, n) == Drive(t, d, m)
    decreases n
  {
    if m < n {
      DriveStopped(t, d, m, n - 1);
      DriveMore(t, d, n - 1);
    }
  }

  /** Pushes never fail. */
  lemma PushesKeepOk(g: Gen, entries: seq<Entry>)
    requires g.status.Ok?
    ensures Run(g, Operands(entries)).status.Ok?
    decreases |entries|
  {
    var more := Operands(entries);
    if entries != [] {
      var e, front := entries[|entries| - 1], entries[..|entries| - 1];
      if e.WordEntry? && e.word.operand.Some? {
        assert more == [PushOf(e.word.operand.value)] + Operands(front);
        assert more[1..] == Operands(front);
        PushesKeepOk(Step(g, PushOf(e.word.operand.value)), front);
      } else {
        assert more == Operands(front);
        PushesKeepOk(g, front);
      }
    }
  }

  /** Pops `count` entries; under @PUSH the operands among them go to the generator in the order they are popped. */
  method PopEntries(stack: seq<Entry>, count: nat, effect: Effect, gen: CodeGenerator) returns (rest: seq<Entry>)
    requires gen.status.Ok? && count <= |stack|
    modifies gen, gen.temps
    ensures rest == stack[..|stack| - count]
    ensures gen.State() == if effect.PushOperands? then Run(old(gen.State()), Operands(stack[|stack| - count..]))
      else old(gen.State())
  {
    hide Run, Operands;
    rest := stack;
    ghost var g, from := gen.State(), |stack| - count;
    for i := 0 to count
      invariant rest == stack[..|stack| - i] && gen.status.Ok?
      invariant effect.PushOperands? ==>
        Run(gen.State(), Operands(stack[from..|stack| - i])) == Run(g, Operands(stack[from..]))
      invariant !effect.PushOperands? ==> gen.State() == g
    {
      ghost var below := stack[from..|stack| - i];
      var e := rest[|rest| - 1];
      rest := rest[..|rest| - 1];
      if effect.PushOperands? {
        OperandStep(gen.State(), below);
        assert below[..|below| - 1] == stack[from..|stack| - (i + 1)];
        if e.WordEntry? && e.word.operand.Some? {
          gen.Act(PushOf(e.word.operand.value));
        }
      }
    }
    assert stack[from..from] == [];
    NoOperands(gen.State());
  }

  lemma NoOperands(g: Gen)
    ensures Run(g, Operands([])) == g
  {
  }

  lemma OperandStep(g: Gen, entries: seq<Entry>)
    requires g.status.Ok? && entries != []
    ensures
      var e, front := entries[|entries| - 1], entries[..|entries| - 1];
      if e.WordEntry? && e.word.operand.Some? then
        var a := PushOf(e.word.operand.value);
        && Step(g, a).status.Ok?
        && Run(g, Operands(entries)) == Run(Step(g, a), Operands(front))
      else Operands(entries) == Operands(front)
  {
    var e, front := entries[|entries| - 1], entries[..|entries| - 1];
    if e.WordEntry? && e.word.operand.Some? {
      var all := Operands(entries);
      assert all[0] == PushOf(e.word.operand.value) && all[1..] == Operands(front);
    }
  }

  /**
   `ScriptEngineBooleanExpresssionParse`, cut off after `limit` rounds.
   */
  method ParseExpression(t: Tables, ghost notes: seq<Note>, words: seq<Word>, gen: CodeGenerator,
      limit: nat) returns (outcome: Progress)
    requires gen.status.Ok? && Coherent(t, notes) && Scanned(t, words)
    requires forall n: nat :: n <= limit ==> Drive(t, Begin(words, gen.State()), n).gen.status != Undefined
    modifies gen, gen.temps
    ensures var d := Drive(t, Begin(words, old(gen.State())), limit); outcome == d.outcome && gen.Follows(d.gen)
  {
    hide Advance, Drive, Coherent, Scanned;
    ghost var d := Begin(words, gen.State());
    ghost var d0 := d;
    var stack, input := [StateEntry(0)], words;
    outcome := Running;
    var n := 0;
    DriveNothing(t, d);
    while n < limit && outcome.Running?
      invariant n <= limit && d == Drive(t, d0, n) && d.outcome == outcome
      invariant outcome.Running? ==> d == Driver(stack, input, gen.State(), Running) && gen.status.Ok?
      invariant gen.Follows(d.gen)
    {
      DriveMore(t, d0, n);
      var _ := DriverSound(t, notes, old(gen.State()), words, n + 1);
      stack, input, outcome := Round(t, stack, input, gen);
      d := Advance(t, d);
      n := n + 1;
    }
    if n < limit {
      DriveStopped(t, d0, n, limit);
    }
  }

  lemma DriveNothing(t: Tables, d: Driver)
    ensures Drive(t, d, 0) == d
  {
  }

  /** One round: look up, then accept, give up, shift or reduce. */
  method Round(t: Tables, stack: seq<Entry>, input: seq<Word>, gen: CodeGenerator)
    returns (stack': seq<Entry>, input': seq<Word>, outcome: Progress)
    requires gen.status.Ok?
    requires
      var d := Advance(t, Driver(stack, input, gen.State(), Running));
      !d.outcome.Lost? && d.gen.status != Undefined
    modifies gen, gen.temps
    ensures
      var d := Advance(t, Driver(stack, input, old(gen.State()), Running));
      && outcome == d.outcome
      && gen.Follows(d.gen)
      && (outcome.Running? ==> d == Driver(stack', input', gen.State(), Running) && gen.status.Ok?)
  {
    hide Reduce;
    stack', input', outcome := stack, input, Running;
    var s := stack[|stack| - 1].state;
    var w := if input == [] then Word(t.end, None) else input[0];
    if s == INVALID || w.terminal < 0 {
      outcome := SyntaxError;
      return;
    }
    var a := t.action[s][w.terminal];
    if a == LALR_ACCEPT {
      outcome := Accepted;
    } else if a == INVALID || a == 0 {
      outcome := SyntaxError;
    } else if a > 0 {
      stack' := stack' + [WordEntry(w)];
      stack' := stack' + [StateEntry(a)];
      input' := if input == [] then [] else input[1..];
    } else {
      stack', outcome := ReduceBy(t, stack, input, t.productions[-a - 1], gen);
    }
  }

  method ReduceBy(t: Tables, stack: seq<Entry>, ghost input: seq<Word>, p: Production, gen: CodeGenerator)
    returns (stack': seq<Entry>, outcome: Progress)
    requires gen.status.Ok?
    requires
      var d := Reduce(t, Driver(stack, input, gen.State(), Running), p);
      !d.outcome.Lost? && d.gen.status != Undefined
    modifies gen, gen.temps
    ensures
      var d := Reduce(t, Driver(stack, input, old(gen.State()), Running), p);
      && outcome == d.outcome
      && gen.Follows(d.gen)
      && (outcome.Running? ==> d == Driver(stack', input, gen.State(), Running) && gen.status.Ok?)
  {
    hide Run, Fire;
    outcome := Running;
    ghost var k := |stack| - 2 * |p.rhs|;
    PushesKeepOk(gen.State(), stack[k..]);
    stack' := PopEntries(stack, 2 * |p.rhs|, p.effect, gen);
    if p.effect.Fires? {
      gen.CodeGen(p.effect.rule);
      if !gen.status.Ok? {
        outcome := Stopped;
        return;
      }
    }
    var below := stack'[|stack'| - 1].state;
    var next := t.goto[below][p.lhs];
    stack' := stack' + [HeadEntry(p.lhs)];
    stack' := stack' + [StateEntry(next)];
  }
}
