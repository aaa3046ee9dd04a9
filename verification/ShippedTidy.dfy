/**
 Accepted trees are within the model: a rule outside it, or a `for` header that ends
 in a bare l-value, would have stopped the generator.
 */
module ShippedTidy {
  import opened Words
  import opened Script
  import opened Codegen
  import opened Ll
  import opened Reading
  import opened ShippedGrammar
  import opened ShippedRows
  import Lalr
  import Parsing
  import ShippedTables
  import ShippedParser

  /** What pushing a token does fits its kind; pseudo-registers are outside the model. */
  predicate Typed(w: Lexeme) {
    w.kind >= 0 ==> PushFits(w.kind, w.push)
  }

  /** No `for` header ends in a bare l-value. */
  predicate NoBareStep(tree: Tree)
    decreases tree
  {
    tree.Node? ==> tree.row != BARE_STEP && forall c :: c in tree.children ==> NoBareStep(c)
  }

  // ---------------------------------------------------------------- what cannot be accepted

  /** A foreign rule, or the step of a `for` that leaves its operand where an address is expected. */
  predicate SpoiledAt(acts: seq<Action>, i: nat) {
    && i < |acts|
    && (|| acts[i] == Generate(ForeignRule)
        || (i + 1 < |acts| && acts[i].PushPlace? && acts[i + 1] == Generate(StartOfForCommands)))
  }

  predicate Spoiled(acts: seq<Action>) {
    exists i :: 0 <= i < |acts| && SpoiledAt(acts, i)
  }

  /** No text with such actions is accepted: the generator does not get through them. */
  lemma {:induction false} SpoiledStops(g: Gen, acts: seq<Action>, i: nat)
    requires g.status.Ok? && SpoiledAt(acts, i)
    ensures !Run(g, acts).status.Ok?
    decreases |acts|
  {
    hide Step;
    var g' := Step(g, acts[0]);
    if i > 0 {
      if g'.status.Ok? {
        SpoiledStops(g', acts[1..], i - 1);
      } else {
        RunStops(g', acts[1..]);
      }
    } else if acts[0] == Generate(ForeignRule) {
      ForeignCrashes(g);
      RunStops(g', acts[1..]);
    } else {
      OperandIsNoAddress(g, acts[0].place);
      assert acts[1..][0] == acts[1];
      RunStops(Step(g', acts[1]), acts[1..][1..]);
    }
  }

  lemma ForeignCrashes(g: Gen)
    ensures !Step(g, Generate(ForeignRule)).status.Ok?
  {
  }

  lemma OperandIsNoAddress(g: Gen, place: Place)
    requires g.status.Ok?
    ensures Step(g, PushPlace(place)).status.Ok?
    ensures !Step(Step(g, PushPlace(place)), Generate(StartOfForCommands)).status.Ok?
  {
  }

  lemma SpoiledWithin(a: seq<Action>, b: seq<Action>, c: seq<Action>)
    requires Spoiled(b)
    ensures Spoiled(a + b + c)
  {
    var i :| 0 <= i < |b| && SpoiledAt(b, i);
    var acts := a + b + c;
    assert acts[|a| + i] == b[i] && (i + 1 < |b| ==> acts[|a| + i + 1] == b[i + 1]);
    assert SpoiledAt(acts, |a| + i);
  }

  lemma {:induction false} ChildSpoils(t: Lalr.Tables, cs: seq<Tree>, i: nat)
    requires i < |cs| && Spoiled(Actions(t, cs[i]))
    ensures Spoiled(AllActions(t, cs))
    decreases |cs|
  {
    hide Actions, Spoiled;
    var first, rest := Actions(t, cs[0]), AllActions(t, cs[1..]);
    if i > 0 {
      ChildSpoils(t, cs[1..], i - 1);
      SpoiledWithin(first, rest, []);
      assert first + rest + [] == first + rest;
    } else {
      SpoiledWithin([], first, rest);
      assert [] + first + rest == first + rest;
    }
  }

  lemma {:induction false} ChildYield(cs: seq<Tree>, i: nat, w: Lexeme)
    requires i < |cs| && w in Yield(cs[i])
    ensures w in Yields(cs)
    decreases |cs|
  {
    hide Yield;
    if i > 0 {
      ChildYield(cs[1..], i - 1, w);
    }
  }

  // ---------------------------------------------------------------- boolean expressions

  lemma {:induction false} ChildPostorder(t: Lalr.Tables, trees: seq<Lalr.Tree>, c: Lalr.Tree, a: Action)
    requires c in trees && a in Lalr.Postorder(t, c)
    ensures a in Lalr.Postorders(t, trees)
    decreases |trees|
  {
    hide Lalr.Postorder, Lalr.Postorders;
    var front, last := trees[..|trees| - 1], trees[|trees| - 1];
    assert trees == front + [last];
    Lalr.PostordersSnoc(t, front, last);
    if c != last {
      ChildPostorder(t, front, c, a);
    }
  }

  lemma ShippedRow(p: nat)
    requires p < |ShippedTables.Shipped().productions|
    ensures var prod := ShippedTables.Shipped().productions[p];
            prod.effect == Lalr.Fires(ForeignRule) || Parsing.Shaped(prod)
  {
    hide Parsing.Shaped, ShippedTables.RuleOf, ShippedTables.Past;
    ShippedParser.RowsAreShaped(p);
  }

  /** A parse tree that fires no foreign rule is an expression's. */
  lemma {:induction false} ParseIsPlain(t: Lalr.Tables, tree: Lalr.Tree, words: seq<Lalr.Word>)
    requires t == ShippedTables.Shipped() && Lalr.Fits(t, tree) && Parsing.OperandWords(t, words)
    requires Generate(ForeignRule) !in Lalr.Postorder(t, tree)
    requires forall w :: w in Lalr.Yield(tree) ==> w in words
    ensures Parsing.PlainTree(t, tree)
    decreases tree
  {
    hide ShippedTables.Shipped, Parsing.OperandWords, Parsing.OperandExpr, Parsing.NonTerminals, Lalr.Yields,
      Lalr.Postorders;
    if tree.Node? {
      var prod, cs := t.productions[tree.production], tree.children;
      ShippedRow(tree.production);
      assert prod.effect != Lalr.Fires(ForeignRule);
      forall c | c in cs ensures Parsing.PlainTree(t, c) {
        Parsing.ChildYields(cs, c);
        if Generate(ForeignRule) in Lalr.Postorder(t, c) {
          ChildPostorder(t, cs, c, Generate(ForeignRule));
        }
        ParseIsPlain(t, c, words);
      }
      if prod.effect.PushOperands? {
        var tip := cs[0];
        assert Lalr.Roots(t, cs)[0] == Lalr.Root(t, tip) && tip in cs;
        Parsing.ChildYields(cs, tip);
        assert tip.word in Lalr.Yield(tip);
        Parsing.PushedOperand(t, words, prod, tip.word);
      }
    }
  }

  // ---------------------------------------------------------------- pushes

  const FOR_ROW: nat := 61
  const STEP_ROW: nat := 65

  predicate Steps(x: Item) {
    x == Phrase(N_INC_DEC) || x == Phrase(N_INC_DEC_REST)
  }

  /** Neither pushes nor contains the step of a `for`. */
  predicate Ordinary(rhs: seq<Item>) {
    forall x :: x in rhs ==> !x.Push? && !Steps(x)
  }

  predicate PushesOne(p: nat) {
    117 <= p <= 124 || p >= 130
  }

  /** Only rows of a single operand push, and only two rows contain the step of a `for`. */
  lemma OrdinaryRow(p: nat)
    requires p < ROWS && !PushesOne(p) && p != FOR_ROW && p != STEP_ROW
    ensures Ordinary(RhsOf(p))
  {
    hide Ordinary, StatementRows, ReportRows, CallRows, MoreCallRows, LastCallRows, TwoArgumentCallRows, BranchRows,
      LoopRows, ExpressionRows, TermRows, UnaryCallRows, MoreUnaryCallRows, TwoArgumentRows, PrimaryRows;
    if p <= 14 {
      StatementRowsOrdinary(p);
    } else if p <= 22 {
      ReportRowsOrdinary(p);
    } else if p <= 30 {
      CallRowsOrdinary(p);
    } else if p <= 38 {
      MoreCallRowsOrdinary(p);
    } else if p <= 43 {
      LastCallRowsOrdinary(p);
    } else if p <= 49 {
      TwoArgumentCallRowsOrdinary(p);
    } else if p <= 58 {
      BranchRowsOrdinary(p);
    } else if p <= 70 {
      LoopRowsOrdinary(p);
    } else if p <= 83 {
      ExpressionRowsOrdinary(p);
    } else if p <= 92 {
      TermRowsOrdinary(p);
    } else if p <= 104 {
      UnaryCallRowsOrdinary(p);
    } else if p <= 109 {
      MoreUnaryCallRowsOrdinary(p);
    } else if p <= 115 {
      TwoArgumentRowsOrdinary(p);
    } else {
      PrimaryRowsOrdinary(p);
    }
  }

  lemma StatementRowsOrdinary(p: nat)
    requires p <= 14
    ensures Ordinary(StatementRows(p))
  {
  }

  lemma ReportRowsOrdinary(p: nat)
    requires 15 <= p <= 22
    ensures Ordinary(ReportRows(p))
  {
  }

  lemma CallRowsOrdinary(p: nat)
    requires 23 <= p <= 30
    ensures Ordinary(CallRows(p))
  {
  }

  lemma MoreCallRowsOrdinary(p: nat)
    requires 31 <= p <= 38
    ensures Ordinary(MoreCallRows(p))
  {
  }

  lemma LastCallRowsOrdinary(p: nat)
    requires 39 <= p <= 43
    ensures Ordinary(LastCallRows(p))
  {
  }

  lemma TwoArgumentCallRowsOrdinary(p: nat)
    requires 44 <= p <= 49
    ensures Ordinary(TwoArgumentCallRows(p))
  {
  }

  lemma BranchRowsOrdinary(p: nat)
    requires 50 <= p <= 58
    ensures Ordinary(BranchRows(p))
  {
  }

  lemma LoopRowsOrdinary(p: nat)
    requires 59 <= p <= 70 && p != FOR_ROW && p != STEP_ROW
    ensures Ordinary(LoopRows(p))
  {
  }

  lemma ExpressionRowsOrdinary(p: nat)
    requires 71 <= p <= 83
    ensures Ordinary(ExpressionRows(p))
  {
  }

  lemma TermRowsOrdinary(p: nat)
    requires 84 <= p <= 92
    ensures Ordinary(TermRows(p))
  {
  }

  lemma UnaryCallRowsOrdinary(p: nat)
    requires 93 <= p <= 104
    ensures Ordinary(UnaryCallRows(p))
  {
  }

  lemma MoreUnaryCallRowsOrdinary(p: nat)
    requires 105 <= p <= 109
    ensures Ordinary(MoreUnaryCallRows(p))
  {
  }

  lemma TwoArgumentRowsOrdinary(p: nat)
    requires 110 <= p <= 115
    ensures Ordinary(TwoArgumentRows(p))
  {
  }

  lemma PrimaryRowsOrdinary(p: nat)
    requires p == 116 || 125 <= p <= 129
    ensures Ordinary(PrimaryRows(p))
  {
  }

  /** A row that pushes is named by the table for the very token it pushes. */
  lemma PushCell(p: nat, a: nat)
    requires p < ROWS && PushesOne(p) && TableEntry(LhsOf(p), a) == p
    ensures RhsOf(p) == [Push(a)]
  {
    hide TableEntry, CellsE12, CellsString, CellsLValue, PrimaryRows, OperandRows;
    OperandEntries(a);
    if p <= 124 {
      PrimaryPush(p, a);
    } else if p == 130 {
      StringPush(a);
    } else {
      PlacePush(p, a);
    }
  }

  lemma OperandEntries(a: nat)
    ensures TableEntry(N_E12, a) == CellsE12(a)
    ensures TableEntry(N_STRING, a) == CellsString(a)
    ensures TableEntry(N_L_VALUE, a) == CellsLValue(a)
  {
    hide CellsElseStatement, CellsBooleanExpression, CellsCallFuncStatement, CellsLValue, CellsE2Rest,
      CellsIncDecRest, CellsVa, CellsS, CellsE4, CellsE5, CellsE5Rest, CellsIncDec, CellsIfStatement, CellsE0Rest,
      CellsSimpleAssignment, CellsAssignmentStatement, CellsString, CellsEndOfIf, CellsE4Rest, CellsForStatement,
      CellsWhileStatement, CellsE2, CellsStatement, CellsExpression, CellsElsifStatementRest, CellsE12,
      CellsE3Rest, CellsE1, CellsDoWhileStatement, CellsElsifStatement, CellsE3, CellsE1Rest,
      CellsAssignmentStatementRest, CellsSimpleAssignmentRest;
  }

  lemma PrimaryPush(p: nat, a: nat)
    requires 117 <= p <= 124 && CellsE12(a) == p
    ensures PrimaryRows(p) == [Push(a)]
  {
  }

  lemma StringPush(a: nat)
    requires CellsString(a) == 130
    ensures OperandRows(130) == [Push(a)]
  {
  }

  lemma PlacePush(p: nat, a: nat)
    requires 131 <= p <= 133 && CellsLValue(a) == p
    ensures OperandRows(p) == [Push(a)]
  {
  }

  // ---------------------------------------------------------------- accepted trees are tidy

  /** The tokens below a tree are among `input`, which the model covers. */
  ghost predicate Covered(t: Lalr.Tables, tree: Tree, input: seq<Lexeme>) {
    && (forall w :: w in input ==> Typed(w)) && Parsing.OperandWords(t, InnerWords(input))
    && (forall w :: w in Yield(tree) ==> w in input)
  }

  lemma ConditionIsTidy(g: Grammar, item: Item, tree: Tree, input: seq<Lexeme>)
    requires g == Statements(g.same, g.extent) && Grows(g, item, tree) && tree.Condensed?
    requires Covered(g.inner, tree, input) && Generate(ForeignRule) !in Actions(g.inner, tree)
    ensures Tidy(tree)
  {
    hide ShippedTables.Shipped, Parsing.OperandWords, Parsing.PlainTree, Lalr.Fits, Lalr.Root, Lalr.Yield,
      Lalr.Postorder, TableEntry, LhsOf, RhsOf;
    assert Lalr.Yield(tree.parse) == InnerWords(tree.front);
    forall w | w in Lalr.Yield(tree.parse) ensures w in InnerWords(input) {
      assert w in InnerWords(tree.front);
      var i :| 0 <= i < |InnerWords(tree.front)| && InnerWords(tree.front)[i] == w;
      assert Yield(tree)[i] == tree.front[i] && tree.front[i] in Yield(tree);
      var j :| 0 <= j < |input| && input[j] == tree.front[i];
      assert InnerWords(input)[j] == w;
    }
    ParseIsPlain(g.inner, tree.parse, InnerWords(input));
  }

  /** A node that pushes, pushes what its terminal says. */
  lemma PushIsTidy(g: Grammar, n: nat, tree: Tree, i: nat, input: seq<Lexeme>)
    requires g == Statements(g.same, g.extent) && Grows(g, Phrase(n), tree) && Covered(g.inner, tree, input)
    requires tree.Node? && i < |tree.children| && tree.children[i].Pushed?
    ensures Tidy(tree.children[i])
  {
    hide ShippedTables.Shipped, Parsing.OperandWords, TableEntry, LhsOf, RhsOf, PushFits, Ordinary;
    var p, c := tree.row, tree.children[i];
    assert Grows(g, g.rows[p].rhs[i], c);
    assert RhsOf(p)[i] == Push(c.terminal);
    if !PushesOne(p) {
      NoPush(p, i);
    }
    OperandAlone(p);
    assert tree.children == [c];
    assert Yield(tree) == [c.lexeme] by {
      assert Yields([c]) == Yield(c) + Yields([]);
    }
    assert c.lexeme in Yield(tree);
    PushCell(p, c.lexeme.kind);
  }

  lemma NoPush(p: nat, i: nat)
    requires p < ROWS && !PushesOne(p) && i < |RhsOf(p)|
    ensures !RhsOf(p)[i].Push?
  {
    hide RhsOf;
    if p == FOR_ROW || p == STEP_ROW {
      StepRows();
    } else {
      OrdinaryRow(p);
      assert RhsOf(p)[i] in RhsOf(p);
    }
  }

  lemma StepRows()
    ensures ForItems(RhsOf(FOR_ROW)) && RhsOf(STEP_ROW) == [Phrase(N_L_VALUE), Phrase(N_INC_DEC_REST)]
  {
    LongRows();
  }

  lemma OperandAlone(p: nat)
    requires p < ROWS && PushesOne(p)
    ensures |RhsOf(p)| == 1
  {
  }

  lemma ChildCovered(t: Lalr.Tables, tree: Tree, i: nat, input: seq<Lexeme>)
    requires tree.Node? && i < |tree.children| && Covered(t, tree, input)
    ensures Covered(t, tree.children[i], input)
  {
    hide Parsing.OperandWords, Yields, Typed;
    forall w | w in Yield(tree.children[i]) ensures w in input {
      ChildYield(tree.children, i, w);
      assert w in Yield(tree);
    }
  }

  // ---------------------------------------------------------------- the step of a for

  ghost predicate Grown(g: Grammar, item: Item, tree: Tree) {
    g == Statements(g.same, g.extent) && Grows(g, item, tree)
  }

  lemma GrownNode(g: Grammar, n: nat, tree: Tree)
    requires Grown(g, Phrase(n), tree)
    ensures tree.Node? && tree.row < ROWS && LhsOf(tree.row) == n
    ensures |tree.children| == |RhsOf(tree.row)|
    ensures forall i :: 0 <= i < |tree.children| ==> Grown(g, RhsOf(tree.row)[i], tree.children[i])
  {
    hide LhsOf, RhsOf, TableEntry, ShippedTables.Shipped, Predicted;
    forall i | 0 <= i < |tree.children| ensures Grown(g, RhsOf(tree.row)[i], tree.children[i]) {
      assert Grows(g, g.rows[tree.row].rhs[i], tree.children[i]);
    }
  }

  lemma GrownLeaf(g: Grammar, item: Item, tree: Tree)
    requires Grown(g, item, tree)
    ensures item.Word? ==> tree.Matched?
    ensures item.Push? ==> tree.Pushed? && tree.terminal == item.terminal
    ensures item.Act? ==> tree == Acted(item.rule)
    ensures item.Phrase? <==> tree.Node?
  {
    hide Lalr.Fits, Lalr.Root, Lalr.Yield, ShippedTables.Shipped, Predicted;
  }

  lemma StepIs(g: Grammar, tree: Tree)
    requires Grown(g, Phrase(N_INC_DEC), tree)
    ensures tree.Node? && tree.row == STEP_ROW && |tree.children| == 2
    ensures Grown(g, Phrase(N_L_VALUE), tree.children[0]) && Grown(g, Phrase(N_INC_DEC_REST), tree.children[1])
    ensures tree.children[0].Node? && tree.children[1].Node?
  {
    hide Grown, RhsOf;
    GrownNode(g, N_INC_DEC, tree);
    StepRows();
    GrownLeaf(g, Phrase(N_L_VALUE), tree.children[0]);
    GrownLeaf(g, Phrase(N_INC_DEC_REST), tree.children[1]);
  }

  lemma PlaceIs(g: Grammar, tree: Tree, input: seq<Lexeme>)
    requires Grown(g, Phrase(N_L_VALUE), tree) && Covered(g.inner, tree, input)
    ensures PlaceOf(tree).Some?
  {
    hide Covered, TableEntry;
    GrownNode(g, N_L_VALUE, tree);
    GrownLeaf(g, RhsOf(tree.row)[0], tree.children[0]);
    PushIsTidy(g, N_L_VALUE, tree, 0, input);
  }

  /** A bare step pushes its place and does nothing with it. */
  lemma BareActs(g: Grammar, tree: Tree, input: seq<Lexeme>)
    requires Grown(g, Phrase(N_INC_DEC), tree) && Covered(g.inner, tree, input)
    requires tree.Node? && |tree.children| == 2 && tree.children[1].Node? && tree.children[1].row == BARE_STEP
    ensures |Actions(g.inner, tree)| == 1 && Actions(g.inner, tree)[0].PushPlace?
  {
    hide Grown, Covered, RhsOf, Actions, From, PlaceOf;
    StepIs(g, tree);
    var cs := tree.children;
    ChildCovered(g.inner, tree, 0, input);
    PlaceIs(g, cs[0], input);
    PlaceActs(g.inner, cs[0]);
    GrownNode(g, N_INC_DEC_REST, cs[1]);
    NothingInBareRow();
    Whole(g.inner, tree);
    Pass(g.inner, cs, 1);
    Last(g.inner, cs, 0);
  }

  lemma NothingInBareRow()
    ensures RhsOf(BARE_STEP) == []
  {
  }

  lemma ForIsGrown(g: Grammar, tree: Tree)
    requires Grown(g, Phrase(N_FOR_STATEMENT), tree)
    ensures tree.Node? && tree.row == FOR_ROW && |tree.children| == 14
    ensures tree.children[8].Matched? && tree.children[9].Matched? && tree.children[10] == Acted(StartOfForCommands)
    ensures Grown(g, Phrase(N_INC_DEC), tree.children[7])
  {
    hide Grown, RhsOf;
    GrownNode(g, N_FOR_STATEMENT, tree);
    StepRows();
    var rhs := RhsOf(FOR_ROW);
    GrownLeaf(g, rhs[8], tree.children[8]);
    GrownLeaf(g, rhs[9], tree.children[9]);
    GrownLeaf(g, rhs[10], tree.children[10]);
  }

  lemma {:induction false} FromSplit(t: Lalr.Tables, cs: seq<Tree>, i: nat) returns (before: seq<Action>)
    requires i <= |cs|
    ensures From(t, cs, 0) == before + From(t, cs, i)
    decreases i
  {
    hide From, Actions;
    if i == 0 {
      before := [];
      assert [] + From(t, cs, 0) == From(t, cs, 0);
    } else {
      var less := FromSplit(t, cs, i - 1);
      Peel(t, cs, i - 1);
      before := less + Actions(t, cs[i - 1]);
      Assoc3(less, Actions(t, cs[i - 1]), From(t, cs, i));
    }
  }

  lemma BareSpoils(g: Grammar, tree: Tree, input: seq<Lexeme>)
    requires Grown(g, Phrase(N_FOR_STATEMENT), tree) && Covered(g.inner, tree, input)
    requires tree.Node? && |tree.children| == 14 && tree.children[7].Node? && |tree.children[7].children| == 2
    requires tree.children[7].children[1].Node? && tree.children[7].children[1].row == BARE_STEP
    ensures Spoiled(Actions(g.inner, tree))
  {
    hide Grown, Covered, Actions, From, Spoiled;
    var t, cs := g.inner, tree.children;
    ForIsGrown(g, tree);
    ChildCovered(t, tree, 7, input);
    BareActs(g, cs[7], input);
    Whole(t, tree);
    var before := FromSplit(t, cs, 7);
    Peel(t, cs, 7);
    Pass(t, cs, 8);
    Pass(t, cs, 9);
    Fires(t, cs, 10);
    var rest := From(t, cs, 11);
    OperandThenCommands(before, Actions(t, cs[7]), rest);
  }

  lemma OperandThenCommands(before: seq<Action>, push: seq<Action>, rest: seq<Action>)
    requires |push| == 1 && push[0].PushPlace?
    ensures Spoiled(before + (push + ([Generate(StartOfForCommands)] + rest)))
  {
    var acts := before + (push + ([Generate(StartOfForCommands)] + rest));
    assert acts[|before|] == push[0] && acts[|before| + 1] == Generate(StartOfForCommands);
    assert SpoiledAt(acts, |before|);
  }

  /** A tree that does not spoil the generator has no bare step. */
  lemma {:induction false} UnspoiledHasNoBareStep(g: Grammar, n: nat, tree: Tree, input: seq<Lexeme>)
    requires Grown(g, Phrase(n), tree) && Covered(g.inner, tree, input) && !Steps(Phrase(n))
    requires !Spoiled(Actions(g.inner, tree))
    ensures NoBareStep(tree)
    decreases tree, 1
  {
    hide Grown, Covered, LhsOf, RhsOf, Actions, AllActions, Spoiled;
    GrownNode(g, n, tree);
    RowsOfSteps();
    if tree.row == FOR_ROW {
      ForHasNoBareStep(g, tree, input);
    } else {
      ChildrenHaveNoBareStep(g, n, tree, input);
    }
  }

  lemma RowsOfSteps()
    ensures LhsOf(FOR_ROW) == N_FOR_STATEMENT && LhsOf(STEP_ROW) == N_INC_DEC && LhsOf(BARE_STEP) == N_INC_DEC_REST
  {
  }

  lemma ChildUnspoiled(t: Lalr.Tables, tree: Tree, i: nat)
    requires tree.Node? && i < |tree.children| && !Spoiled(Actions(t, tree))
    ensures !Spoiled(Actions(t, tree.children[i]))
  {
    hide Spoiled;
    if Spoiled(Actions(t, tree.children[i])) {
      ChildSpoils(t, tree.children, i);
    }
  }

  lemma {:induction false} ChildrenHaveNoBareStep(g: Grammar, n: nat, tree: Tree, input: seq<Lexeme>)
    requires Grown(g, Phrase(n), tree) && Covered(g.inner, tree, input) && tree.Node?
    requires tree.row != FOR_ROW && tree.row != STEP_ROW && !Spoiled(Actions(g.inner, tree))
    ensures forall c :: c in tree.children ==> NoBareStep(c)
    decreases tree, 0
  {
    hide Grown, Covered, LhsOf, RhsOf, Actions, Spoiled, Ordinary;
    GrownNode(g, n, tree);
    forall c | c in tree.children ensures NoBareStep(c) {
      var i :| 0 <= i < |tree.children| && tree.children[i] == c;
      var item := RhsOf(tree.row)[i];
      GrownLeaf(g, item, c);
      if c.Node? {
        ChildUnspoiled(g.inner, tree, i);
        ChildCovered(g.inner, tree, i, input);
        NoStepAt(tree.row, i);
        UnspoiledHasNoBareStep(g, item.nonTerminal, c, input);
      }
    }
  }

  lemma NoStepAt(p: nat, i: nat)
    requires p < ROWS && p != FOR_ROW && p != STEP_ROW && i < |RhsOf(p)| && RhsOf(p)[i].Phrase?
    ensures !Steps(RhsOf(p)[i])
  {
    if PushesOne(p) {
      OperandRow(p);
      assert false;
    } else {
      OrdinaryAt(p, i);
    }
  }

  lemma OrdinaryAt(p: nat, i: nat)
    requires p < ROWS && !PushesOne(p) && p != FOR_ROW && p != STEP_ROW && i < |RhsOf(p)|
    ensures !Steps(RhsOf(p)[i])
  {
    hide RhsOf;
    OrdinaryRow(p);
    assert RhsOf(p)[i] in RhsOf(p);
  }

  lemma OperandRow(p: nat)
    requires p < ROWS && PushesOne(p)
    ensures |RhsOf(p)| == 1 && RhsOf(p)[0].Push?
  {
  }

  lemma {:induction false} ForHasNoBareStep(g: Grammar, tree: Tree, input: seq<Lexeme>)
    requires Grown(g, Phrase(N_FOR_STATEMENT), tree) && Covered(g.inner, tree, input)
    requires tree.Node? && !Spoiled(Actions(g.inner, tree))
    ensures NoBareStep(tree)
    decreases tree, 0
  {
    hide Grown, Covered, LhsOf, RhsOf, Actions, Spoiled;
    GrownNode(g, N_FOR_STATEMENT, tree);
    ForIsGrown(g, tree);
    StepRows();
    forall c | c in tree.children ensures NoBareStep(c) {
      var i :| 0 <= i < |tree.children| && tree.children[i] == c;
      var item := RhsOf(FOR_ROW)[i];
      GrownLeaf(g, item, c);
      if c.Node? {
        ChildUnspoiled(g.inner, tree, i);
        ChildCovered(g.inner, tree, i, input);
        if i == 7 {
          StepIs(g, c);
          if c.children[1].row == BARE_STEP {
            BareSpoils(g, tree, input);
          }
          StepHasNoBareStep(g, c, input);
        } else {
          OtherPhrases(i);
          UnspoiledHasNoBareStep(g, item.nonTerminal, c, input);
        }
      }
    }
  }

  lemma OtherPhrases(i: nat)
    requires i < |RhsOf(FOR_ROW)| && i != 7 && RhsOf(FOR_ROW)[i].Phrase?
    ensures !Steps(RhsOf(FOR_ROW)[i])
  {
  }

  lemma {:induction false} StepHasNoBareStep(g: Grammar, tree: Tree, input: seq<Lexeme>)
    requires Grown(g, Phrase(N_INC_DEC), tree) && Covered(g.inner, tree, input) && !Spoiled(Actions(g.inner, tree))
    requires tree.Node? && |tree.children| == 2 && tree.children[1].Node? && tree.children[1].row != BARE_STEP
    ensures NoBareStep(tree)
    decreases tree, 0
  {
    hide Grown, Covered, LhsOf, RhsOf, Actions, Spoiled;
    StepIs(g, tree);
    var cs := tree.children;
    ChildUnspoiled(g.inner, tree, 0);
    ChildCovered(g.inner, tree, 0, input);
    UnspoiledHasNoBareStep(g, N_L_VALUE, cs[0], input);
    ChildUnspoiled(g.inner, tree, 1);
    ChildCovered(g.inner, tree, 1, input);
    GrownNode(g, N_INC_DEC_REST, cs[1]);
    RowsOfSteps();
    ChildrenHaveNoBareStep(g, N_INC_DEC_REST, cs[1], input);
  }

  // ---------------------------------------------------------------- tidiness

  lemma NotForeign(acts: seq<Action>)
    requires !Spoiled(acts)
    ensures Generate(ForeignRule) !in acts
  {
    forall i | 0 <= i < |acts| ensures acts[i] != Generate(ForeignRule) {
      assert !SpoiledAt(acts, i);
    }
  }

  lemma LeafIsTidy(g: Grammar, n: nat, tree: Tree, i: nat, input: seq<Lexeme>)
    requires Grown(g, Phrase(n), tree) && Covered(g.inner, tree, input) && !Spoiled(Actions(g.inner, tree))
    requires tree.Node? && i < |tree.children| && !tree.children[i].Node?
    ensures Tidy(tree.children[i])
  {
    hide Covered, LhsOf, RhsOf, Spoiled, Parsing.PlainTree, Lalr.Postorder, ShippedTables.Shipped, TableEntry,
      Predicted, PushFits;
    GrownNode(g, n, tree);
    var c := tree.children[i];
    ChildUnspoiled(g.inner, tree, i);
    NotForeign(Actions(g.inner, c));
    ChildCovered(g.inner, tree, i, input);
    match c
    case Matched(_, _) =>
    case Pushed(_, _) => PushIsTidy(g, n, tree, i, input);
    case Condensed(_, _, _, _) => ConditionIsTidy(g, RhsOf(tree.row)[i], c, input);
    case Acted(_) =>
  }

  /** A tree that does not spoil the generator stays within the model. */
  lemma {:induction false} UnspoiledIsTidy(g: Grammar, n: nat, tree: Tree, input: seq<Lexeme>)
    requires Grown(g, Phrase(n), tree) && Covered(g.inner, tree, input)
    requires !Spoiled(Actions(g.inner, tree)) && NoBareStep(tree)
    ensures Tidy(tree)
    decreases tree
  {
    hide Grown, Covered, LhsOf, RhsOf, Spoiled, Actions, Parsing.PlainTree;
    GrownNode(g, n, tree);
    var cs := tree.children;
    forall c | c in cs ensures Tidy(c) {
      var i :| 0 <= i < |cs| && cs[i] == c;
      if c.Node? {
        GrownLeaf(g, RhsOf(tree.row)[i], c);
        ChildUnspoiled(g.inner, tree, i);
        ChildCovered(g.inner, tree, i, input);
        UnspoiledIsTidy(g, RhsOf(tree.row)[i].nonTerminal, c, input);
      } else {
        LeafIsTidy(g, n, tree, i, input);
      }
    }
  }
}
