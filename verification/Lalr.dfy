/**
 The shift/reduce driver for boolean expressions.  It never looks at what it
 pops, so that it parses anything at all is a property of whole runs over
 coherent tables.
 */
module Lalr {
  import opened Words
  import opened Script
  import opened Codegen

  const INVALID: int := -999
  const LALR_ACCEPT: int := 999

  datatype Sym = Terminal(id: nat) | NonTerminal(id: nat)

  datatype Operand = NumberOperand(value: u64) | PlaceOperand(place: Place)

  function PushOf(o: Operand): Action {
    match o
    case NumberOperand(n) => PushNumber(n)
    case PlaceOperand(p) => PushPlace(p)
  }

  /** A scanned token: the terminal it counts as (negative: none) and, for an operand type, the operand. */
  datatype Word = Word(terminal: int, operand: Option<Operand>)

  /** The semantic rule at the end of a grammar row. */
  datatype Effect = Nothing | PushOperands | Fires(rule: Rule)

  datatype Production = Production(lhs: nat, rhs: seq<Sym>, effect: Effect)

  datatype Tables = Tables(productions: seq<Production>, action: seq<seq<int>>, goto: seq<seq<int>>,
                           terminals: nat, nonTerminals: nat, start: nat, end: nat)

  datatype Entry = StateEntry(state: int) | WordEntry(word: Word) | HeadEntry(lhs: nat)

  /** Lost: the source would read outside a table or below its stack. */
  datatype Progress = Running | Accepted | SyntaxError | Stopped | Lost

  datatype Driver = Driver(stack: seq<Entry>, input: seq<Word>, gen: Gen, outcome: Progress)

  // ---------------------------------------------------------------- the driver

  function Begin(words: seq<Word>, g: Gen): Driver {
    Driver([StateEntry(0)], words, g, Running)
  }

  /** The current token; past the end of the expression it is the end marker. */
  function Current(t: Tables, d: Driver): Word {
    if d.input == [] then Word(t.end, None) else d.input[0]
  }

  /** The operands among popped entries, last entry first. */
  function Operands(entries: seq<Entry>): seq<Action>
    decreases |entries|
  {
    if entries == [] then []
    else
      var e := entries[|entries| - 1];
      (if e.WordEntry? && e.word.operand.Some? then [PushOf(e.word.operand.value)] else [])
      + Operands(entries[..|entries| - 1])
  }

  function Perform(g: Gen, effect: Effect, popped: seq<Entry>): Gen {
    match effect
    case Nothing => g
    case PushOperands => Run(g, Operands(popped))
    case Fires(rule) => Fire(g, rule)
  }

  function Reduce(t: Tables, d: Driver, p: Production): Driver {
    var k := |d.stack| - 2 * |p.rhs|;
    if k < 1 then d.(outcome := Lost)
    else
      var g := Perform(d.gen, p.effect, d.stack[k..]);
      var rest := d.stack[..k];
      if !g.status.Ok? then d.(stack := rest, gen := g, outcome := Stopped)
      else
        var below := rest[k - 1];
        if !below.StateEntry? || !(0 <= below.state < |t.goto|) ||
            p.lhs >= |t.goto[below.state]| then d.(outcome := Lost)
        else d.(stack := rest + [HeadEntry(p.lhs), StateEntry(t.goto[below.state][p.lhs])], gen := g)
  }

  /** One round of the driver's loop. */
  function Advance(t: Tables, d: Driver): Driver {
    var w := Current(t, d);
    if d.stack == [] || !d.stack[|d.stack| - 1].StateEntry? then d.(outcome := Lost)
    else
      var s := d.stack[|d.stack| - 1].state;
      if s == INVALID || w.terminal < 0 then d.(outcome := SyntaxError)
      else if !(0 <= s < |t.action|) || w.terminal >= |t.action[s]| then d.(outcome := Lost)
      else
        var a := t.action[s][w.terminal];
        if a == LALR_ACCEPT then d.(outcome := Accepted)
        else if a == INVALID || a == 0 then d.(outcome := SyntaxError)
        else if a > 0 then
          d.(stack := d.stack + [WordEntry(w), StateEntry(a)], input := if d.input == [] then [] else d.input[1..])
        else if -a - 1 >= |t.productions| then d.(outcome := Lost)
        else Reduce(t, d, t.productions[-a - 1])
  }

  /** The driver after at most `n` rounds. */
  function Drive(t: Tables, d: Driver, n: nat): Driver
    decreases n
  {
    if n == 0 || !d.outcome.Running? then d else Drive(t, Advance(t, d), n - 1)
  }

  // ---------------------------------------------------------------- parse trees

  datatype Tree = Tip(word: Word) | Node(production: nat, children: seq<Tree>)

  function Root(t: Tables, tree: Tree): Sym {
    match tree
    case Tip(w) => if w.terminal < 0 then Terminal(0) else Terminal(w.terminal)
    case Node(p, _) => if p < |t.productions| then NonTerminal(t.productions[p].lhs) else NonTerminal(0)
  }

  function Roots(t: Tables, trees: seq<Tree>): (r: seq<Sym>)
    ensures |r| == |trees|
    ensures forall i :: 0 <= i < |trees| ==> r[i] == Root(t, trees[i])
  {
    seq(|trees|, i requires 0 <= i < |trees| => Root(t, trees[i]))
  }

  /** A tree of the grammar: at every node the children spell the right-hand side. */
  predicate Fits(t: Tables, tree: Tree) {
    match tree
    case Tip(w) => w.terminal >= 0
    case Node(p, children) =>
      && p < |t.productions|
      && Roots(t, children) == t.productions[p].rhs
      && forall c :: c in children ==> Fits(t, c)
  }

  function Yield(tree: Tree): seq<Word>
    decreases tree
  {
    match tree
    case Tip(w) => [w]
    case Node(_, children) => Yields(children)
  }

  function Yields(trees: seq<Tree>): seq<Word>
    decreases trees
  {
    if trees == [] then [] else Yields(trees[..|trees| - 1]) + Yield(trees[|trees| - 1])
  }

  /** What the rule of a node does once its children are done. */
  function EffectActions(effect: Effect, children: seq<Tree>): seq<Action> {
    match effect
    case Nothing => []
    case PushOperands => TipOperands(children)
    case Fires(rule) => [Generate(rule)]
  }

  /** The operands among the children, last child first. */
  function TipOperands(children: seq<Tree>): seq<Action>
    decreases |children|
  {
    if children == [] then []
    else
      var c := children[|children| - 1];
      (if c.Tip? && c.word.operand.Some? then [PushOf(c.word.operand.value)] else [])
      + TipOperands(children[..|children| - 1])
  }

  /** The pushes and rules of a tree in postorder. */
  function Postorder(t: Tables, tree: Tree): seq<Action>
    decreases tree
  {
    match tree
    case Tip(_) => []
    case Node(p, children) =>
      Postorders(t, children) + (if p < |t.productions| then EffectActions(t.productions[p].effect, children) else [])
  }

  function Postorders(t: Tables, trees: seq<Tree>): seq<Action>
    decreases trees
  {
    if trees == [] then [] else Postorders(t, trees[..|trees| - 1]) + Postorder(t, trees[|trees| - 1])
  }

  // ---------------------------------------------------------------- coherent tables

  /** What a state knows of the symbols below it: how they end and, if `whole`, that these are all. */
  datatype Note = Note(past: seq<Sym>, whole: bool)

  predicate Suffix(a: seq<Sym>, b: seq<Sym>) {
    |a| <= |b| && b[|b| - |a|..] == a
  }

  predicate Knows(n: Note, syms: seq<Sym>) {
    Suffix(n.past, syms) && (n.whole ==> n.past == syms)
  }

  /** What is known after `x` follows from what was known before. */
  predicate Leads(from: Note, x: Sym, to: Note) {
    Suffix(to.past, from.past + [x]) && (to.whole ==> from.whole && to.past == from.past + [x])
  }

  predicate CoherentEntry(t: Tables, notes: seq<Note>, s: nat, a: nat, entry: int)
    requires s < |notes|
  {
    if entry == LALR_ACCEPT then a == t.end && notes[s] == Note([NonTerminal(t.start)], true)
    else if entry == INVALID || entry == 0 then true
    else if entry > 0 then entry < |notes| && a != t.end && Leads(notes[s], Terminal(a), notes[entry])
    else -entry - 1 < |t.productions| && Suffix(t.productions[-entry - 1].rhs, notes[s].past)
  }

  /**
   The tables agree with the rules: a state from which a rule is reduced can only
   be on top of that rule's right-hand side, and the accepting state only on top
   of the start symbol alone.
   */
  predicate Coherent(t: Tables, notes: seq<Note>) {
    && |t.action| == |t.goto| == |notes| > 0
    && notes[0] == Note([], true)
    && t.end < t.terminals
    && (forall p :: p in t.productions ==> p.lhs < t.nonTerminals)
    && (forall s :: 0 <= s < |t.action| ==> |t.action[s]| == t.terminals && |t.goto[s]| == t.nonTerminals)
    && (forall s, a :: 0 <= s < |t.action| && 0 <= a < t.terminals ==> CoherentEntry(t, notes, s, a, t.action[s][a]))
    && (forall s, n :: 0 <= s < |t.goto| && 0 <= n < t.nonTerminals && t.goto[s][n] != INVALID ==>
          0 <= t.goto[s][n] < |notes| && Leads(notes[s], NonTerminal(n), notes[t.goto[s][n]]))
  }

  // ---------------------------------------------------------------- the invariant of a run

  function EntryOf(t: Tables, tree: Tree): Entry {
    match tree
    case Tip(w) => WordEntry(w)
    case Node(p, _) => if p < |t.productions| then HeadEntry(t.productions[p].lhs) else HeadEntry(0)
  }

  predicate Placed(notes: seq<Note>, e: Entry, syms: seq<Sym>) {
    e.StateEntry? && 0 <= e.state < |notes| && Knows(notes[e.state], syms)
  }

  predicate AllFit(t: Tables, trees: seq<Tree>) {
    forall tree :: tree in trees ==> Fits(t, tree)
  }

  /** The stack holds the trees built so far, with a state that knows them before and after each. */
  predicate Stacked(t: Tables, notes: seq<Note>, stack: seq<Entry>, trees: seq<Tree>) {
    && |stack| == 2 * |trees| + 1
    && (forall i :: 0 <= i < |trees| ==> stack[2 * i + 1] == EntryOf(t, trees[i]))
    && (forall i :: 0 <= i < |trees| ==> Placed(notes, stack[2 * i], Roots(t, trees[..i])))
    && (Placed(notes, stack[2 * |trees|], Roots(t, trees)) || stack[2 * |trees|] == StateEntry(INVALID))
    && AllFit(t, trees)
  }

  /** What was read so far is the yield of the trees, and the generator has done their postorder. */
  predicate Explained(t: Tables, g0: Gen, words: seq<Word>, input: seq<Word>, gen: Gen, trees: seq<Tree>) {
    && Yields(trees) + input == words
    && gen == Run(g0, Postorders(t, trees))
  }

  lemma YieldsSnoc(trees: seq<Tree>, tree: Tree)
    ensures Yields([]) == [] && Yields(trees + [tree]) == Yields(trees) + Yield(tree)
  {
    assert (trees + [tree])[..|trees|] == trees;
  }

  lemma {:induction false} YieldsAppend(a: seq<Tree>, b: seq<Tree>)
    ensures Yields(a + b) == Yields(a) + Yields(b)
    decreases |b|
  {
    hide Yields, Yield;
    if b == [] {
      assert a + b == a;
      YieldsSnoc([], Tip(Word(0, None)));
    } else {
      var front, last := b[..|b| - 1], b[|b| - 1];
      YieldsAppend(a, front);
      YieldsSnoc(a + front, last);
      YieldsSnoc(front, last);
      assert a + b == a + front + [last] && b == front + [last];
    }
  }

  lemma PostordersSnoc(t: Tables, trees: seq<Tree>, tree: Tree)
    ensures Postorders(t, []) == [] && Postorders(t, trees + [tree]) == Postorders(t, trees) + Postorder(t, tree)
  {
    assert (trees + [tree])[..|trees|] == trees;
  }

  lemma {:induction false} PostordersAppend(t: Tables, a: seq<Tree>, b: seq<Tree>)
    ensures Postorders(t, a + b) == Postorders(t, a) + Postorders(t, b)
    decreases |b|
  {
    hide Postorders, Postorder;
    if b == [] {
      assert a + b == a;
      PostordersSnoc(t, [], Tip(Word(0, None)));
    } else {
      var front, last := b[..|b| - 1], b[|b| - 1];
      PostordersAppend(t, a, front);
      PostordersSnoc(t, a + front, last);
      PostordersSnoc(t, front, last);
      assert a + b == a + front + [last] && b == front + [last];
    }
  }

  /** The trees after the last ones have been made the children of a node. */
  function Folded(trees: seq<Tree>, k: nat, p: nat): seq<Tree>
    requires k <= |trees|
  {
    trees[..k] + [Node(p, trees[k..])]
  }

  lemma FoldedExplains(t: Tables, trees: seq<Tree>, k: nat, p: nat)
    requires k <= |trees| && p < |t.productions|
    ensures Yields(Folded(trees, k, p)) == Yields(trees)
    ensures Postorders(t, Folded(trees, k, p)) == Postorders(t, trees)
      + EffectActions(t.productions[p].effect, trees[k..])
  {
    hide Yields, Postorders, EffectActions;
    var node := Node(p, trees[k..]);
    assert trees == trees[..k] + trees[k..];
    YieldsAppend(trees[..k], trees[k..]);
    YieldsSnoc(trees[..k], node);
    PostordersAppend(t, trees[..k], trees[k..]);
    PostordersSnoc(t, trees[..k], node);
  }

  lemma OperandsSnoc(entries: seq<Entry>, e: Entry, state: Entry)
    requires state.StateEntry?
    ensures Operands([]) == []
    ensures Operands(entries + [e, state]) ==
            (if e.WordEntry? && e.word.operand.Some? then [PushOf(e.word.operand.value)] else []) + Operands(entries)
  {
    var all := entries + [e, state];
    assert all[..|all| - 1] == entries + [e] && (entries + [e])[..|entries|] == entries;
  }

  lemma TipOperandsSnoc(trees: seq<Tree>, c: Tree)
    ensures TipOperands([]) == []
    ensures TipOperands(trees + [c]) ==
            (if c.Tip? && c.word.operand.Some? then [PushOf(c.word.operand.value)] else []) + TipOperands(trees)
  {
    assert (trees + [c])[..|trees|] == trees;
  }

  /** Popping the entries of trees finds the operands of those trees. */
  lemma {:induction false} PoppedOperands(t: Tables, entries: seq<Entry>, trees: seq<Tree>)
    requires |entries| == 2 * |trees|
    requires forall i :: 0 <= i < |trees| ==> entries[2 * i] == EntryOf(t, trees[i]) && entries[2 * i + 1].StateEntry?
    ensures Operands(entries) == TipOperands(trees)
    decreases |trees|
  {
    hide Operands, TipOperands;
    if trees == [] {
      OperandsSnoc([], StateEntry(0), StateEntry(0));
      TipOperandsSnoc([], Tip(Word(0, None)));
    } else {
      var m := |trees| - 1;
      PoppedOperands(t, entries[..2 * m], trees[..m]);
      OperandsSnoc(entries[..2 * m], entries[2 * m], entries[2 * m + 1]);
      TipOperandsSnoc(trees[..m], trees[m]);
      assert entries == entries[..2 * m] + [entries[2 * m], entries[2 * m + 1]] && trees == trees[..m] + [trees[m]];
    }
  }

  lemma {:induction false} PerformIs(t: Tables, g: Gen, effect: Effect, popped: seq<Entry>, trees: seq<Tree>)
    requires g.status.Ok? && |popped| == 2 * |trees|
    requires forall i :: 0 <= i < |trees| ==> popped[2 * i] == EntryOf(t, trees[i]) && popped[2 * i + 1].StateEntry?
    ensures Perform(g, effect, popped) == Run(g, EffectActions(effect, trees))
  {
    hide Fire;
    match effect
    case Nothing =>
    case PushOperands => PoppedOperands(t, popped, trees);
    case Fires(rule) => RunOne(g, Generate(rule));
  }

  lemma SuffixGrows(to: Note, from: Note, x: Sym, syms: seq<Sym>)
    requires Leads(from, x, to) && Knows(from, syms)
    ensures Knows(to, syms + [x])
  {
    var n := |from.past|;
    assert (syms + [x])[|syms| - n..] == from.past + [x];
    var m := |to.past|;
    assert (syms + [x])[|syms| + 1 - m..] == (from.past + [x])[n + 1 - m..];
  }

  lemma RootsPrefix(t: Tables, trees: seq<Tree>, k: nat)
    requires k <= |trees|
    ensures Roots(t, trees)[..k] == Roots(t, trees[..k])
    ensures Roots(t, trees)[k..] == Roots(t, trees[k..])
  {
  }

  lemma ShiftKeeps(t: Tables, notes: seq<Note>, g0: Gen, words: seq<Word>, d: Driver, trees: seq<Tree>, a: int)
    requires Stacked(t, notes, d.stack, trees) && Explained(t, g0, words, d.input, d.gen, trees)
    requires Placed(notes, d.stack[2 * |trees|], Roots(t, trees))
    requires d.input != [] && d.input[0].terminal >= 0 && 0 < a < |notes|
    requires Leads(notes[d.stack[2 * |trees|].state], Terminal(d.input[0].terminal), notes[a])
    ensures
      var d' := d.(stack := d.stack + [WordEntry(d.input[0]), StateEntry(a)], input := d.input[1..]);
      var trees' := trees + [Tip(d.input[0])];
      Stacked(t, notes, d'.stack, trees') && Explained(t, g0, words, d'.input, d'.gen, trees')
  {
    hide Knows, Leads, Yields, Postorders, Run;
    var w := d.input[0];
    var trees' := trees + [Tip(w)];
    var stack' := d.stack + [WordEntry(w), StateEntry(a)];
    assert Roots(t, trees') == Roots(t, trees) + [Terminal(w.terminal)];
    SuffixGrows(notes[a], notes[d.stack[2 * |trees|].state], Terminal(w.terminal), Roots(t, trees));
    forall i | 0 <= i < |trees'| ensures Placed(notes, stack'[2 * i], Roots(t, trees'[..i])) {
      assert trees'[..i] == trees[..i] && trees[..|trees|] == trees;
    }
    YieldsSnoc(trees, Tip(w));
    PostordersSnoc(t, trees, Tip(w));
    assert Yields(trees) + [w] + d.input[1..] == Yields(trees) + d.input;
    assert Postorders(t, trees) + [] == Postorders(t, trees);
  }

  lemma ReduceKeeps(t: Tables, notes: seq<Note>, g0: Gen, words: seq<Word>, d: Driver, trees: seq<Tree>, p: nat)
    requires Coherent(t, notes) && d.outcome.Running? && d.gen.status.Ok?
    requires Stacked(t, notes, d.stack, trees) && Explained(t, g0, words, d.input, d.gen, trees)
    requires p < |t.productions| && Suffix(t.productions[p].rhs, Roots(t, trees))
    requires Placed(notes, d.stack[2 * |trees|], Roots(t, trees))
    ensures
      var k := |trees| - |t.productions[p].rhs|;
      var d' := Reduce(t, d, t.productions[p]);
      && Explained(t, g0, words, d'.input, d'.gen, Folded(trees, k, p)) && AllFit(t, Folded(trees, k, p))
      && if d'.gen.status.Ok? then d'.outcome.Running? &&
          Stacked(t, notes, d'.stack, Folded(trees, k, p)) else d'.outcome.Stopped?
  {
    hide Coherent, Perform, Run, Fits, Yields, Postorders, EffectActions, Knows;
    var prod := t.productions[p];
    var k := |trees| - |prod.rhs|;
    ReduceGen(t, notes, g0, words, d, trees, p);
    FoldedExplains(t, trees, k, p);
    ReduceStack(t, notes, d.stack, trees, p);
    assert |d.stack| - 2 * |prod.rhs| == 2 * k + 1;
    assert d.stack[..2 * k + 1][2 * k] == d.stack[2 * k];
  }

  lemma PlacedState(notes: seq<Note>, e: Entry, syms: seq<Sym>)
    ensures Placed(notes, e, syms) ==> e.StateEntry?
  {
  }

  /** The effect of the rule on the generator. */
  lemma ReduceGen(t: Tables, notes: seq<Note>, g0: Gen, words: seq<Word>, d: Driver, trees: seq<Tree>, p: nat)
    requires Coherent(t, notes) && d.gen.status.Ok?
    requires Stacked(t, notes, d.stack, trees) && Explained(t, g0, words, d.input, d.gen, trees)
    requires p < |t.productions| && |t.productions[p].rhs| <= |trees|
    requires Placed(notes, d.stack[2 * |trees|], Roots(t, trees))
    ensures
      var k := |trees| - |t.productions[p].rhs|;
      Perform(d.gen, t.productions[p].effect, d.stack[2 * k + 1..]) ==
      Run(g0, Postorders(t, trees) + EffectActions(t.productions[p].effect, trees[k..]))
  {
    hide Coherent, Run, Perform, Fits, Knows, Placed, Postorders, EffectActions, Yields;
    var effect, k := t.productions[p].effect, |trees| - |t.productions[p].rhs|;
    var popped := d.stack[2 * k + 1..];
    forall i | 0 <= i < |trees[k..]|
      ensures popped[2 * i] == EntryOf(t, trees[k..][i]) && popped[2 * i + 1].StateEntry?
    {
      assert popped[2 * i] == d.stack[2 * (k + i) + 1];
      assert popped[2 * i + 1] == d.stack[2 * (k + i + 1)];
      assert k + i + 1 < |trees| ==> Placed(notes, d.stack[2 * (k + i + 1)], Roots(t, trees[..k + i + 1]));
      PlacedState(notes, popped[2 * i + 1], Roots(t, trees[..k + i + 1]));
      PlacedState(notes, d.stack[2 * |trees|], Roots(t, trees));
    }
    PerformIs(t, d.gen, effect, popped, trees[k..]);
    RunAppend(g0, Postorders(t, trees), EffectActions(effect, trees[k..]));
  }

  lemma ReduceStack(t: Tables, notes: seq<Note>, stack: seq<Entry>, trees: seq<Tree>, p: nat)
    requires Coherent(t, notes) && Stacked(t, notes, stack, trees)
    requires p < |t.productions| && Suffix(t.productions[p].rhs, Roots(t, trees))
    requires Placed(notes, stack[2 * |trees|], Roots(t, trees))
    ensures
      var k, lhs := |trees| - |t.productions[p].rhs|, t.productions[p].lhs;
      && stack[2 * k].StateEntry? && 0 <= stack[2 * k].state < |t.goto| && lhs < |t.goto[stack[2 * k].state]|
      && Stacked(t, notes, stack[..2 * k + 1] + [HeadEntry(lhs), StateEntry(t.goto[stack[2 * k].state][lhs])],
          Folded(trees, k, p))
  {
    hide CoherentEntry, Knows, Leads;
    var prod := t.productions[p];
    var k := |trees| - |prod.rhs|;
    RootsPrefix(t, trees, k);
    var folded := Folded(trees, k, p);
    var node := Node(p, trees[k..]);
    assert trees[..|trees|] == trees;
    assert Placed(notes, stack[2 * k], Roots(t, trees[..k]));
    assert prod in t.productions;
    var s := stack[2 * k].state;
    var next := t.goto[s][prod.lhs];
    var stack' := stack[..2 * k + 1] + [HeadEntry(prod.lhs), StateEntry(next)];
    forall i | 0 <= i < |folded| ensures folded[..i] == trees[..i] &&
        Placed(notes, stack'[2 * i], Roots(t, folded[..i])) {
      assert stack'[2 * i] == stack[2 * i];
    }
    assert Fits(t, node);
    assert Roots(t, folded) == Roots(t, trees[..k]) + [NonTerminal(prod.lhs)];
    if next != INVALID {
      SuffixGrows(notes[next], notes[s], NonTerminal(prod.lhs), Roots(t, trees[..k]));
    }
  }

  // ---------------------------------------------------------------- soundness

  predicate Scanned(t: Tables, words: seq<Word>) {
    forall w :: w in words ==> w.terminal < t.terminals && w.terminal != t.end
  }

  /** One round keeps the invariant; the trees change as the driver shifts and reduces. */
  lemma RoundKeeps(t: Tables, notes: seq<Note>, g0: Gen, words: seq<Word>, d: Driver,
      trees: seq<Tree>) returns (trees': seq<Tree>)
    requires Coherent(t, notes) && Scanned(t, words) && d.outcome.Running? && d.gen.status.Ok?
    requires Stacked(t, notes, d.stack, trees) && Explained(t, g0, words, d.input, d.gen, trees)
    ensures
      var d' := Advance(t, d);
      && Explained(t, g0, words, d'.input, d'.gen, trees') && AllFit(t, trees')
      && (d'.outcome.Running? ==> d'.gen.status.Ok? && Stacked(t, notes, d'.stack, trees'))
      && !d'.outcome.Lost?
      && (d'.outcome.Stopped? <==> !d'.gen.status.Ok?)
      && (d'.outcome.Accepted? ==>
          d'.input == [] && |trees'| == 1 && Root(t, trees'[0]) == NonTerminal(t.start) && Fits(t, trees'[0]))
  {
    hide Explained, Reduce, Fits, Run, Leads;
    trees' := trees;
    var top, w := d.stack[2 * |trees|], Current(t, d);
    if d.input != [] {
      InputInWords(t, g0, words, d, trees);
    }
    if top.state != INVALID && w.terminal >= 0 {
      var a := t.action[top.state][w.terminal];
      assert CoherentEntry(t, notes, top.state, w.terminal, a);
      if a == LALR_ACCEPT {
        assert |Roots(t, trees)| == 1 && Roots(t, trees)[0] == Root(t, trees[0]);
        assert trees[0] in trees;
      } else if a > 0 {
        ShiftKeeps(t, notes, g0, words, d, trees, a);
        trees' := trees + [Tip(w)];
      } else if a != INVALID && a != 0 {
        var p := -a - 1;
        SuffixTrans(t.productions[p].rhs, notes[top.state].past, Roots(t, trees));
        ReduceKeeps(t, notes, g0, words, d, trees, p);
        trees' := Folded(trees, |trees| - |t.productions[p].rhs|, p);
      }
    }
  }

  lemma InputInWords(t: Tables, g0: Gen, words: seq<Word>, d: Driver, trees: seq<Tree>)
    requires Explained(t, g0, words, d.input, d.gen, trees) && d.input != []
    ensures d.input[0] in words
  {
    assert words[|Yields(trees)|] == d.input[0];
  }

  lemma SuffixTrans(a: seq<Sym>, b: seq<Sym>, c: seq<Sym>)
    requires Suffix(a, b) && Suffix(b, c)
    ensures Suffix(a, c)
  {
  }

  lemma StackedFit(t: Tables, notes: seq<Note>, stack: seq<Entry>, trees: seq<Tree>)
    requires Stacked(t, notes, stack, trees)
    ensures AllFit(t, trees)
  {
  }

  /** The invariant over a whole run. */
  lemma {:induction false} RunKeeps(t: Tables, notes: seq<Note>, g0: Gen, words: seq<Word>, d: Driver,
      trees: seq<Tree>, n: nat) returns (trees': seq<Tree>)
    requires Coherent(t, notes) && Scanned(t, words) && d.outcome.Running? && d.gen.status.Ok?
    requires Stacked(t, notes, d.stack, trees) && Explained(t, g0, words, d.input, d.gen, trees)
    ensures
      var d' := Drive(t, d, n);
      && Explained(t, g0, words, d'.input, d'.gen, trees') && AllFit(t, trees')
      && !d'.outcome.Lost?
      && (d'.outcome.Stopped? <==> !d'.gen.status.Ok?)
      && (d'.outcome.Accepted? ==>
          d'.input == [] && |trees'| == 1 && Root(t, trees'[0]) == NonTerminal(t.start) && Fits(t, trees'[0]))
    decreases n
  {
    hide Coherent, Scanned, Stacked, Explained, Advance, Fits;
    StackedFit(t, notes, d.stack, trees);
    if n == 0 {
      trees' := trees;
    } else {
      trees' := RoundKeeps(t, notes, g0, words, d, trees);
      if Advance(t, d).outcome.Running? {
        trees' := RunKeeps(t, notes, g0, words, Advance(t, d), trees', n - 1);
      }
    }
  }

  /**
   Soundness: over coherent tables the driver never leaves its tables or its
   stack, and when it accepts, the whole input is the yield of a parse tree of the
   start symbol and the generator has done exactly that tree's postorder.
   */
  lemma DriverSound(t: Tables, notes: seq<Note>, g0: Gen, words: seq<Word>, n: nat) returns (tree: Tree)
    requires Coherent(t, notes) && Scanned(t, words) && g0.status.Ok?
    ensures
      var d := Drive(t, Begin(words, g0), n);
      && !d.outcome.Lost?
      && (d.outcome.Stopped? <==> !d.gen.status.Ok?)
      && (d.outcome.Accepted? ==>
            && d.input == []
            && Fits(t, tree) && Root(t, tree) == NonTerminal(t.start)
            && Yield(tree) == words
            && d.gen == Run(g0, Postorder(t, tree)))
  {
    hide Coherent, Scanned, Run, Fits, Drive;
    var d0 := Begin(words, g0);
    BeginExplained(t, notes, g0, words);
    var trees := RunKeeps(t, notes, g0, words, d0, [], n);
    tree := Tip(Word(0, None));
    if Drive(t, d0, n).outcome.Accepted? {
      tree := trees[0];
      assert trees == [] + [tree];
      YieldsSnoc([], tree);
      PostordersSnoc(t, [], tree);
      assert [] + Yield(tree) == Yield(tree) && Yields(trees) + [] == Yield(tree);
      assert [] + Postorder(t, tree) == Postorder(t, tree);
    }
  }

  lemma RunNothing(g: Gen)
    ensures Run(g, []) == g
  {
  }

  lemma BeginExplained(t: Tables, notes: seq<Note>, g0: Gen, words: seq<Word>)
    requires Coherent(t, notes)
    ensures Stacked(t, notes, [StateEntry(0)], []) && Explained(t, g0, words, words, g0, [])
  {
    assert Roots(t, []) == [];
    assert Yields([]) + words == words;
    PostordersSnoc(t, [], Tip(Word(0, None)));
    RunNothing(g0);
  }
}
