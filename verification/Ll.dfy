/**
 The top-down driver for statements.  It expands nonterminals by table, fires the
 semantic rules it meets and hands boolean expressions to the shift/reduce driver.
 */
module Ll {
  import opened Words
  import opened Script
  import opened Codegen
  import Lalr

  const INVALID: int := -999

  /**
   A place of a grammar row.  A push stands for @PUSH and the terminal after it, a
   boolean expression for itself and the terminal after it: the driver removes
   both at once and does not compare the terminal.
   */
  datatype Item =
    | Word(terminal: nat)
    | Push(terminal: nat)
    | Boolean(closing: nat)
    | Act(rule: Rule)
    | Phrase(nonTerminal: nat)

  datatype Row = Row(lhs: nat, rhs: seq<Item>)

  /** A scanned token: the terminal it counts as (negative: none), what pushing it does, and the other driver's view. */
  datatype Lexeme = Lexeme(kind: int, push: Option<Action>, word: Lalr.Word)

  /**
   The rows and the table, how a terminal compares with a token, the tables of the
   other driver, and how many tokens belong to a boolean expression closed by a terminal.
   */
  datatype Grammar = Grammar(rows: seq<Row>, table: seq<seq<int>>, start: nat, end: nat,
                             same: (nat, Lexeme) -> bool,
                             inner: Lalr.Tables, extent: (nat, seq<Lexeme>) -> nat)

  /**
   Lost: the source would read outside a table or push a token that is no operand
   of the model.  Unfinished: the inner driver needs more rounds.
   */
  datatype Progress = Running | Accepted | SyntaxError | Stopped | Lost | Unfinished

  /** The stack has the next item at its end; the end marker under all items is left implicit. */
  datatype Driver = Driver(stack: seq<Item>, input: seq<Lexeme>, gen: Gen, outcome: Progress)

  // ---------------------------------------------------------------- the driver

  function Reversed(items: seq<Item>): (r: seq<Item>)
    ensures |r| == |items|
    ensures forall i :: 0 <= i < |items| ==> r[i] == items[|items| - 1 - i]
  {
    seq(|items|, i requires 0 <= i < |items| => items[|items| - 1 - i])
  }

  function Least(a: nat, b: nat): nat {
    if a <= b then a else b
  }

  function InnerWords(lexemes: seq<Lexeme>): (r: seq<Lalr.Word>)
    ensures |r| == |lexemes| && forall i :: 0 <= i < |lexemes| ==> r[i] == lexemes[i].word
  {
    seq(|lexemes|, i requires 0 <= i < |lexemes| => lexemes[i].word)
  }

  /** Goes on with `gen` if nothing failed. */
  function Proceed(d: Driver, below: seq<Item>, input: seq<Lexeme>, gen: Gen): Driver {
    d.(stack := below, input := input, gen := gen, outcome := if gen.status.Ok? then Running else Stopped)
  }

  function Expand(g: Grammar, d: Driver, n: nat, below: seq<Item>): Driver {
    var kind := if d.input == [] then g.end else d.input[0].kind;
    if kind < 0 then d.(outcome := SyntaxError)
    else if n >= |g.table| || kind >= |g.table[n]| then d.(outcome := Lost)
    else
      var p := g.table[n][kind];
      if p == INVALID then d.(outcome := SyntaxError)
      else if !(0 <= p < |g.rows|) then d.(outcome := Lost)
      else d.(stack := below + Reversed(g.rows[p].rhs))
  }

  /** The tokens of the boolean expression in front. */
  function Front(g: Grammar, closing: nat, input: seq<Lexeme>): seq<Lexeme> {
    input[..Least(g.extent(closing, input), |input|)]
  }

  /** The other driver reads the expression, then one more token goes unread: the closing one. */
  function Condition(g: Grammar, d: Driver, closing: nat, below: seq<Item>, rounds: nat): Driver {
    var front := Front(g, closing, d.input);
    var inner := Lalr.Drive(g.inner, Lalr.Begin(InnerWords(front), d.gen), rounds);
    match inner.outcome
    case Accepted => Proceed(d, below, d.input[Least(|front| + 1, |d.input|)..], inner.gen)
    case SyntaxError => d.(gen := inner.gen, outcome := SyntaxError)
    case Stopped => d.(gen := inner.gen, outcome := Stopped)
    case Lost => d.(gen := inner.gen, outcome := Lost)
    case Running => d.(gen := inner.gen, outcome := Unfinished)
  }

  /** One round of the driver's loop; `rounds` bounds the inner loop. */
  function Advance(g: Grammar, d: Driver, rounds: nat): Driver {
    if d.stack == [] then d.(outcome := if d.input == [] then Accepted else SyntaxError)
    else
      var below := d.stack[..|d.stack| - 1];
      match d.stack[|d.stack| - 1]
      case Phrase(n) => Expand(g, d, n, below)
      case Boolean(closing) => Condition(g, d, closing, below, rounds)
      case Push(_) =>
        if d.input == [] || d.input[0].push.None? then d.(outcome := Lost)
        else Proceed(d, below, d.input[1..], Step(d.gen, d.input[0].push.value))
      case Act(rule) => Proceed(d, below, d.input, Fire(d.gen, rule))
      case Word(t) =>
        if d.input != [] && g.same(t, d.input[0]) then d.(stack := below, input := d.input[1..])
        else d.(outcome := SyntaxError)
  }

  /** The driver after at most `n` rounds. */
  function Drive(g: Grammar, d: Driver, n: nat, rounds: nat): Driver
    decreases n
  {
    if n == 0 || !d.outcome.Running? then d else Drive(g, Advance(g, d, rounds), n - 1, rounds)
  }

  function Begin(g: Grammar, input: seq<Lexeme>, gen: Gen): Driver {
    Driver([Phrase(g.start)], input, gen, Running)
  }

  // ---------------------------------------------------------------- derivation trees

  datatype Tree =
    | Matched(terminal: nat, lexeme: Lexeme)
    | Pushed(terminal: nat, lexeme: Lexeme)
    | Condensed(closing: nat, front: seq<Lexeme>, unread: seq<Lexeme>, parse: Lalr.Tree)
    | Acted(rule: Rule)
    | Node(row: nat, children: seq<Tree>)

  /** The row is the one the table names for the first token below it. */
  predicate Predicted(g: Grammar, p: nat, tokens: seq<Lexeme>)
    requires p < |g.rows|
  {
    tokens == [] || TableAt(g, g.rows[p].lhs, tokens[0].kind) == p
  }

  function TableAt(g: Grammar, n: nat, kind: int): int {
    if n < |g.table| && 0 <= kind < |g.table[n]| then g.table[n][kind] else INVALID
  }

  /** The tree grows from the item. */
  predicate Grows(g: Grammar, item: Item, tree: Tree)
    decreases tree
  {
    match tree
    case Matched(t, w) => item == Word(t) && g.same(t, w)
    case Pushed(t, w) => item == Push(t) && w.push.Some?
    case Condensed(t, front, unread, parse) =>
      && item == Boolean(t) && |unread| <= 1
      && Lalr.Fits(g.inner, parse) && Lalr.Root(g.inner, parse) == Lalr.NonTerminal(g.inner.start)
      && Lalr.Yield(parse) == InnerWords(front)
    case Acted(rule) => item == Act(rule)
    case Node(p, children) =>
      && p < |g.rows| && item == Phrase(g.rows[p].lhs) && Predicted(g, p, Yield(tree))
      && |children| == |g.rows[p].rhs|
      && forall i :: 0 <= i < |children| ==> Grows(g, g.rows[p].rhs[i], children[i])
  }

  function Yield(tree: Tree): seq<Lexeme>
    decreases tree
  {
    match tree
    case Matched(_, w) => [w]
    case Pushed(_, w) => [w]
    case Condensed(_, front, unread, _) => front + unread
    case Acted(_) => []
    case Node(_, children) => Yields(children)
  }

  function Yields(trees: seq<Tree>): seq<Lexeme>
    decreases trees
  {
    if trees == [] then [] else Yield(trees[0]) + Yields(trees[1..])
  }

  /** What a tree does to the generator, from left to right. */
  function Actions(t: Lalr.Tables, tree: Tree): seq<Action>
    decreases tree
  {
    match tree
    case Matched(_, _) => []
    case Pushed(_, w) => if w.push.Some? then [w.push.value] else []
    case Condensed(_, _, _, parse) => Lalr.Postorder(t, parse)
    case Acted(rule) => [Generate(rule)]
    case Node(_, children) => AllActions(t, children)
  }

  function AllActions(t: Lalr.Tables, trees: seq<Tree>): seq<Action>
    decreases trees
  {
    if trees == [] then [] else Actions(t, trees[0]) + AllActions(t, trees[1..])
  }

  /** The trees grow from the items of a stack, the next one first. */
  predicate AllGrow(g: Grammar, stack: seq<Item>, trees: seq<Tree>) {
    |trees| == |stack| && forall i :: 0 <= i < |trees| ==> Grows(g, stack[|stack| - 1 - i], trees[i])
  }

  /** Each entry of the table is a row of its nonterminal. */
  predicate Coherent(g: Grammar) {
    forall n, a :: 0 <= n < |g.table| && 0 <= a < |g.table[n]| ==> CoherentEntry(g, n, g.table[n][a])
  }

  predicate CoherentEntry(g: Grammar, n: nat, entry: int) {
    0 <= entry < |g.rows| ==> g.rows[entry].lhs == n
  }

  // ---------------------------------------------------------------- soundness

  lemma {:induction false} YieldsAppend(a: seq<Tree>, b: seq<Tree>)
    ensures Yields(a + b) == Yields(a) + Yields(b)
    decreases |a|
  {
    hide Yield;
    if a == [] {
      assert a + b == b;
    } else {
      assert (a + b)[0] == a[0] && (a + b)[1..] == a[1..] + b;
      YieldsAppend(a[1..], b);
    }
  }

  lemma {:induction false} ActionsAppend(t: Lalr.Tables, a: seq<Tree>, b: seq<Tree>)
    ensures AllActions(t, a + b) == AllActions(t, a) + AllActions(t, b)
    decreases |a|
  {
    hide Actions;
    if a == [] {
      assert a + b == b;
    } else {
      assert (a + b)[0] == a[0] && (a + b)[1..] == a[1..] + b;
      ActionsAppend(t, a[1..], b);
    }
  }

  lemma Cons(t: Lalr.Tables, tree: Tree, trees: seq<Tree>)
    ensures Yields([tree] + trees) == Yield(tree) + Yields(trees)
    ensures AllActions(t, [tree] + trees) == Actions(t, tree) + AllActions(t, trees)
    ensures Yields([]) == [] && AllActions(t, []) == []
  {
    assert ([tree] + trees)[1..] == trees;
  }

  /** The trees account for everything that is still to come. */
  predicate Explains(g: Grammar, d: Driver, end: Gen, trees: seq<Tree>) {
    && AllGrow(g, d.stack, trees)
    && Yields(trees) == d.input
    && end == Run(d.gen, AllActions(g.inner, trees))
  }

  /** An item that is dealt with in one round. */
  lemma OneRound(g: Grammar, d: Driver, d': Driver, tree: Tree, trees: seq<Tree>, end: Gen)
    requires d.stack != [] && d'.stack == d.stack[..|d.stack| - 1] && Explains(g, d', end, trees)
    requires Grows(g, d.stack[|d.stack| - 1], tree) && d.input == Yield(tree) + d'.input
    requires d'.gen == Run(d.gen, Actions(g.inner, tree))
    ensures Explains(g, d, end, [tree] + trees)
  {
    hide Grows, Run, Yield, Actions, Yields, AllActions;
    Cons(g.inner, tree, trees);
    RunAppend(d.gen, Actions(g.inner, tree), AllActions(g.inner, trees));
    var all := [tree] + trees;
    forall i | 0 <= i < |all| ensures Grows(g, d.stack[|d.stack| - 1 - i], all[i]) {
      if i > 0 {
        assert d.stack[|d.stack| - 1 - i] == d'.stack[|d'.stack| - 1 - (i - 1)];
      }
    }
  }

  lemma NodeGrows(g: Grammar, p: nat, children: seq<Tree>, input: seq<Lexeme>)
    requires p < |g.rows| && |children| == |g.rows[p].rhs| && Predicted(g, p, input) && Yields(children) <= input
    requires forall i :: 0 <= i < |children| ==> Grows(g, g.rows[p].rhs[i], children[i])
    ensures Grows(g, Phrase(g.rows[p].lhs), Node(p, children))
  {
    hide Yields;
    assert Yield(Node(p, children)) == Yields(children);
  }

  /** A nonterminal that was expanded: the first trees become the children of a node. */
  lemma Expanded(g: Grammar, d: Driver, p: nat, trees: seq<Tree>, end: Gen)
    requires d.stack != [] && p < |g.rows| && d.stack[|d.stack| - 1] == Phrase(g.rows[p].lhs)
    requires Predicted(g, p, d.input)
    requires Explains(g, d.(stack := d.stack[..|d.stack| - 1] + Reversed(g.rows[p].rhs)), end, trees)
    ensures |g.rows[p].rhs| <= |trees|
    ensures Explains(g, d, end, [Node(p, trees[..|g.rows[p].rhs|])] + trees[|g.rows[p].rhs|..])
  {
    hide Run, Yields, AllActions, Grows, Predicted;
    var rhs, below := g.rows[p].rhs, d.stack[..|d.stack| - 1];
    var k, stack := |rhs|, below + Reversed(rhs);
    var node, rest := Node(p, trees[..k]), trees[k..];
    assert trees == trees[..k] + rest;
    YieldsAppend(trees[..k], rest);
    ActionsAppend(g.inner, trees[..k], rest);
    Cons(g.inner, node, rest);
    forall i | 0 <= i < k ensures Grows(g, rhs[i], trees[..k][i]) {
      assert stack[|stack| - 1 - i] == rhs[i];
    }
    NodeGrows(g, p, trees[..k], d.input);
    var all := [node] + rest;
    forall i | 0 <= i < |all| ensures Grows(g, d.stack[|d.stack| - 1 - i], all[i]) {
      if i > 0 {
        assert stack[|stack| - 1 - (k + i - 1)] == below[|below| - i] == d.stack[|d.stack| - 1 - i];
        assert all[i] == trees[k + i - 1];
      }
    }
  }

  /** Every token means something to the inner driver. */
  predicate Scanned(g: Grammar, input: seq<Lexeme>) {
    forall w :: w in input ==> w.word.terminal < g.inner.terminals && w.word.terminal != g.inner.end
  }

  /** A boolean expression that was accepted. */
  lemma ConditionTree(g: Grammar, notes: seq<Lalr.Note>, d: Driver, closing: nat, below: seq<Item>, rounds: nat)
    returns (tree: Tree)
    requires Lalr.Coherent(g.inner, notes) && Scanned(g, d.input) && d.gen.status.Ok?
    requires Condition(g, d, closing, below, rounds).outcome.Running?
    ensures
      var d' := Condition(g, d, closing, below, rounds);
      && Grows(g, Boolean(closing), tree) && d.input == Yield(tree) + d'.input
      && d'.stack == below && d'.gen == Run(d.gen, Actions(g.inner, tree)) && d'.gen.status.Ok?
  {
    hide Lalr.Coherent, Lalr.Drive, Lalr.Fits, Lalr.Root, Lalr.Yield, Lalr.Postorder, Run;
    var front := Front(g, closing, d.input);
    assert Lalr.Scanned(g.inner, InnerWords(front));
    var parse := Lalr.DriverSound(g.inner, notes, d.gen, InnerWords(front), rounds);
    tree := Condensed(closing, front, d.input[|front|..Least(|front| + 1, |d.input|)], parse);
  }

  lemma RunOne(g: Gen, a: Action)
    requires g.status.Ok?
    ensures Run(g, [a]) == Step(g, a)
    ensures Run(g, []) == g
  {
  }

  /**
   Soundness, at every moment of a run that will accept: the items on the stack
   grow into trees that yield the rest of the input, and whose actions are all that
   is still done to the generator.
   */
  lemma {:induction false} RunExplained(g: Grammar, notes: seq<Lalr.Note>, d: Driver, n: nat, rounds: nat)
    returns (trees: seq<Tree>)
    requires Coherent(g) && Lalr.Coherent(g.inner, notes) && Scanned(g, d.input)
    requires d.outcome.Running? && d.gen.status.Ok? && Drive(g, d, n, rounds).outcome.Accepted?
    ensures Explains(g, d, Drive(g, d, n, rounds).gen, trees) && Drive(g, d, n, rounds).gen.status.Ok?
    decreases n
  {
    hide Coherent, Lalr.Coherent, Explains, Condition, Run, Fire, Step, Scanned, Reversed;
    var d' := Advance(g, d, rounds);
    if d.stack == [] {
      trees := [];
      NothingLeft(g, d);
      assert Drive(g, d', n - 1, rounds) == d';
    } else {
      assert !d'.outcome.Running? ==> Drive(g, d', n - 1, rounds) == d';
      var item, end := d.stack[|d.stack| - 1], Drive(g, d, n, rounds).gen;
      if item.Boolean? {
        ConditionGoesOn(g, d, item.closing, d.stack[..|d.stack| - 1], rounds);
      }
      assert d'.outcome.Running?;
      var tree := Acted(Mov);
      if item.Boolean? {
        tree := ConditionTree(g, notes, d, item.closing, d.stack[..|d.stack| - 1], rounds);
        ScannedSuffix(g, Yield(tree), d'.input);
      } else if item.Phrase? {
        var p := g.table[item.nonTerminal][if d.input == [] then g.end else d.input[0].kind];
        assert p >= 0 && g.rows[p].lhs == item.nonTerminal by {
          EntryCoherent(g, item.nonTerminal, if d.input == [] then g.end else d.input[0].kind);
        }
        trees := RunExplained(g, notes, d', n - 1, rounds);
        Expanded(g, d, p, trees, end);
        trees := [Node(p, trees[..|g.rows[p].rhs|])] + trees[|g.rows[p].rhs|..];
        return;
      } else {
        tree := SimpleTree(g, d, rounds);
        ScannedSuffix(g, Yield(tree), d'.input);
      }
      trees := RunExplained(g, notes, d', n - 1, rounds);
      OneRound(g, d, d', tree, trees, end);
      trees := [tree] + trees;
    }
  }

  lemma ConditionGoesOn(g: Grammar, d: Driver, closing: nat, below: seq<Item>, rounds: nat)
    ensures !Condition(g, d, closing, below, rounds).outcome.Accepted?
  {
  }

  lemma EntryCoherent(g: Grammar, n: nat, a: nat)
    requires Coherent(g) && n < |g.table| && a < |g.table[n]|
    ensures CoherentEntry(g, n, g.table[n][a])
  {
  }

  lemma NothingLeft(g: Grammar, d: Driver)
    requires d.stack == [] && d.input == []
    ensures Explains(g, d, d.gen, [])
  {
  }

  lemma ScannedSuffix(g: Grammar, a: seq<Lexeme>, b: seq<Lexeme>)
    requires Scanned(g, a + b)
    ensures Scanned(g, b)
  {
    forall w | w in b ensures w in a + b {
    }
  }

  /** A token that was matched or pushed, or a rule that was fired. */
  lemma SimpleTree(g: Grammar, d: Driver, rounds: nat) returns (tree: Tree)
    requires d.stack != [] && d.gen.status.Ok? && d.outcome.Running? && Advance(g, d, rounds).outcome.Running?
    requires var item := d.stack[|d.stack| - 1]; item.Word? || item.Push? || item.Act?
    ensures
      var d' := Advance(g, d, rounds);
      && Grows(g, d.stack[|d.stack| - 1], tree) && d.input == Yield(tree) + d'.input
      && d'.stack == d.stack[..|d.stack| - 1] && d'.gen.status.Ok?
      && d'.gen == Run(d.gen, Actions(g.inner, tree))
  {
    hide Run, Fire;
    match d.stack[|d.stack| - 1]
    case Word(t) =>
      tree := Matched(t, d.input[0]);
      RunOne(d.gen, Generate(Mov));
    case Push(t) =>
      tree := Pushed(t, d.input[0]);
      RunOne(d.gen, d.input[0].push.value);
    case Act(rule) =>
      tree := Acted(rule);
      RunOne(d.gen, Generate(rule));
  }

  /**
   Soundness: an accepted text is the yield of a derivation tree of the start symbol
   whose every row is the one the table names for the first token below it, and what
   was done to the generator are that tree's actions from left to right.
   */
  lemma DriverSound(g: Grammar, notes: seq<Lalr.Note>, input: seq<Lexeme>, gen: Gen, n: nat, rounds: nat)
    returns (tree: Tree)
    requires Coherent(g) && Lalr.Coherent(g.inner, notes) && Scanned(g, input) && gen.status.Ok?
    requires Drive(g, Begin(g, input, gen), n, rounds).outcome.Accepted?
    ensures Grows(g, Phrase(g.start), tree) && Yield(tree) == input
    ensures Drive(g, Begin(g, input, gen), n, rounds).gen == Run(gen, Actions(g.inner, tree))
    ensures Drive(g, Begin(g, input, gen), n, rounds).gen.status.Ok?
  {
    hide Coherent, Lalr.Coherent, Run, Drive, Scanned, Grows, Yield, Actions, Yields, AllActions;
    var trees := RunExplained(g, notes, Begin(g, input, gen), n, rounds);
    tree := trees[0];
    assert trees == [tree] + [];
    Cons(g.inner, tree, []);
    assert Yield(tree) + [] == Yield(tree) && Actions(g.inner, tree) + [] == Actions(g.inner, tree);
  }
}
