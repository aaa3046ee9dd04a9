/**
 The trees of the shipped grammar read as statements, provided they use no built-in
 outside the model and no `for` header whose last part is a bare l-value.
 */
module ShippedRows {
  import opened Words
  import opened Script
  import opened Ll
  import opened Reading
  import opened ShippedGrammar
  import Lalr
  import Parsing
  import ShippedTables

  /** The row of a `for` header whose last part only names a place. */
  const BARE_STEP: nat := 69

  // ---------------------------------------------------------------- trees within the model

  predicate PushFits(t: nat, push: Option<Action>) {
    && (t in PLACES ==> push.Some? && push.value.PushPlace?)
    && (t in NUMBERS ==> push.Some? && push.value.PushNumber?)
    && (t == T_STRING ==> push.Some? && push.value.PushString?)
    && t != T_PSEUDO_REGISTER
  }

  predicate Tidy(tree: Tree)
    decreases tree
  {
    match tree
    case Matched(_, _) => true
    case Pushed(t, w) => PushFits(t, w.push)
    case Condensed(_, _, _, parse) => Parsing.PlainTree(ShippedTables.Shipped(), parse)
    case Acted(rule) => rule != ForeignRule
    case Node(p, children) => p != BARE_STEP && forall c :: c in children ==> Tidy(c)
  }

  /** A tidy tree of the shipped grammar below an item. */
  ghost predicate Good(g: Grammar, item: Item, tree: Tree) {
    && g == Statements(g.same, g.extent)
    && Grows(g, item, tree) && Tidy(tree)
  }

  lemma NodeIs(g: Grammar, n: nat, tree: Tree)
    requires Good(g, Phrase(n), tree)
    ensures tree.Node? && tree.row < ROWS && LhsOf(tree.row) == n && tree.row != BARE_STEP
    ensures |tree.children| == |RhsOf(tree.row)|
    ensures forall i :: 0 <= i < |tree.children| ==> Good(g, RhsOf(tree.row)[i], tree.children[i])
    ensures Act(ForeignRule) !in RhsOf(tree.row)
  {
    hide LhsOf, RhsOf, TableEntry, ShippedTables.Shipped, Predicted;
    var cs := tree.children;
    forall i | 0 <= i < |cs| ensures Good(g, RhsOf(tree.row)[i], cs[i]) && RhsOf(tree.row)[i] != Act(ForeignRule) {
      assert cs[i] in cs && Grows(g, g.rows[tree.row].rhs[i], cs[i]);
      assert Tidy(cs[i]);
    }
  }

  /** What the tree below an item is. */
  lemma LeafIs(g: Grammar, item: Item, tree: Tree)
    requires Good(g, item, tree)
    ensures item.Word? ==> tree.Matched?
    ensures item.Push? ==> tree.Pushed? && tree.terminal == item.terminal && PushFits(tree.terminal, tree.lexeme.push)
    ensures item.Act? ==> tree == Acted(item.rule)
    ensures item.Phrase? ==> tree.Node?
    ensures item.Boolean? ==> ConditionOf(g.inner, tree).Some?
  {
    hide Parsing.PlainTree, Parsing.ExprOf, Lalr.Fits, ShippedTables.Shipped;
    if item.Boolean? {
      Parsing.PlainTreeReads(g.inner, tree.parse);
    }
  }

  // ---------------------------------------------------------------- expressions

  predicate Expression(item: Item) {
    item.Phrase? && item.nonTerminal in {N_EXPRESSION, N_E1, N_E2, N_E3, N_E4, N_E5, N_E12}
  }

  predicate Tail(item: Item) {
    item.Phrase? && item.nonTerminal in {N_E0_REST, N_E1_REST, N_E2_REST, N_E3_REST, N_E4_REST, N_E5_REST}
  }

  predicate ExpressionShape(rhs: seq<Item>) {
    || Act(ForeignRule) in rhs
    || (|rhs| == 1 && rhs[0].Push? && rhs[0].terminal in PLACES + NUMBERS + {T_PSEUDO_REGISTER})
    || (|rhs| == 2 && Expression(rhs[0]) && Tail(rhs[1]))
    || (|rhs| == 2 && rhs[0].Word? && Expression(rhs[1]))
    || (|rhs| == 3 && rhs[0].Word? && Expression(rhs[1]) && (rhs[2].Word? || Unaries(rhs[2])))
    || (|rhs| == 5 && rhs[0].Word? && rhs[1].Word? && Expression(rhs[2]) && Unaries(rhs[3]) && rhs[4].Word?)
  }

  predicate Unaries(item: Item) {
    item.Act? && item.rule.UnaryRule?
  }

  predicate TailShape(rhs: seq<Item>) {
    || rhs == []
    || (&& |rhs| == 4 && rhs[0].Word? && Expression(rhs[1]) && rhs[2].Act? && rhs[2].rule.BinaryRule?
        && Tail(rhs[3]))
  }

  lemma ExpressionRow(p: nat)
    requires p < ROWS && Expression(Phrase(LhsOf(p)))
    ensures ExpressionShape(RhsOf(p))
  {
    hide ExpressionShape, ExpressionRows, TermRows, UnaryCallRows, MoreUnaryCallRows, TwoArgumentRows,
      PrimaryRows;
    if p < 84 {
      HeadShape(p);
    } else if p == 88 || p == 84 {
      TermShape(p);
    } else if p <= 104 {
      UnaryCallShape(p);
    } else if p <= 109 {
      MoreUnaryCallShape(p);
    } else if p <= 115 {
      TwoArgumentShape(p);
    } else {
      PrimaryShape(p);
    }
  }

  lemma HeadShape(p: nat)
    requires p in {71, 74, 77, 80}
    ensures ExpressionShape(ExpressionRows(p))
  {
  }

  lemma TermShape(p: nat)
    requires p in {84, 88}
    ensures ExpressionShape(TermRows(p))
  {
  }

  lemma UnaryCallShape(p: nat)
    requires 93 <= p <= 104
    ensures ExpressionShape(UnaryCallRows(p))
  {
  }

  lemma MoreUnaryCallShape(p: nat)
    requires 105 <= p <= 109
    ensures ExpressionShape(MoreUnaryCallRows(p))
  {
  }

  lemma TwoArgumentShape(p: nat)
    requires 110 <= p <= 115
    ensures ExpressionShape(TwoArgumentRows(p))
  {
  }

  lemma PrimaryShape(p: nat)
    requires 116 <= p <= 129
    ensures ExpressionShape(PrimaryRows(p))
  {
  }

  lemma TailRow(p: nat)
    requires p < ROWS && Tail(Phrase(LhsOf(p)))
    ensures TailShape(RhsOf(p))
  {
    hide TailShape, ExpressionRows, TermRows;
    if p < 84 {
      ExpressionTail(p);
    } else {
      TermTail(p);
    }
  }

  lemma ExpressionTail(p: nat)
    requires p in {72, 73, 75, 76, 78, 79, 81, 82, 83}
    ensures TailShape(ExpressionRows(p))
  {
  }

  lemma TermTail(p: nat)
    requires p in {85, 86, 87, 89, 90, 91, 92}
    ensures TailShape(TermRows(p))
  {
  }

  lemma {:induction false} ReadsExpression(g: Grammar, item: Item, tree: Tree)
    requires Expression(item) && Good(g, item, tree)
    ensures ExprOf(tree).Some?
    decreases tree
  {
    hide Good, LhsOf, RhsOf, TailOf, PushFits;
    NodeIs(g, item.nonTerminal, tree);
    ExpressionRow(tree.row);
    var cs, rhs := tree.children, RhsOf(tree.row);
    LeafIs(g, rhs[0], cs[0]);
    if |cs| == 1 {
      ReadsOperand(cs[0]);
    } else if |cs| == 2 {
      LeafIs(g, rhs[1], cs[1]);
      if rhs[0].Word? {
        ReadsExpression(g, rhs[1], cs[1]);
      } else {
        ReadsExpression(g, rhs[0], cs[0]);
        ReadsTail(g, rhs[1], ExprOf(cs[0]).value, cs[1]);
      }
    } else if |cs| == 3 {
      LeafIs(g, rhs[2], cs[2]);
      ReadsExpression(g, rhs[1], cs[1]);
    } else {
      LeafIs(g, rhs[1], cs[1]);
      LeafIs(g, rhs[3], cs[3]);
      LeafIs(g, rhs[4], cs[4]);
      ReadsExpression(g, rhs[2], cs[2]);
    }
  }

  lemma ReadsOperand(tree: Tree)
    requires tree.Pushed? && tree.terminal in PLACES + NUMBERS + {T_PSEUDO_REGISTER}
    requires PushFits(tree.terminal, tree.lexeme.push)
    ensures OperandOf(tree).Some?
  {
  }

  lemma {:induction false} ReadsTail(g: Grammar, item: Item, left: Expr, tree: Tree)
    requires Tail(item) && Good(g, item, tree)
    ensures TailOf(left, tree).Some?
    decreases tree
  {
    hide Good, LhsOf, RhsOf, ExprOf;
    NodeIs(g, item.nonTerminal, tree);
    TailRow(tree.row);
    var cs, rhs := tree.children, RhsOf(tree.row);
    if |cs| == 4 {
      LeafIs(g, rhs[0], cs[0]);
      LeafIs(g, rhs[2], cs[2]);
      ReadsExpression(g, rhs[1], cs[1]);
      ReadsTail(g, rhs[3], Binary(cs[2].rule.bop, left, ExprOf(cs[1]).value), cs[3]);
    }
  }

  // ---------------------------------------------------------------- the parts of statements

  lemma ReadsPlace(g: Grammar, tree: Tree)
    requires Good(g, Phrase(N_L_VALUE), tree)
    ensures PlaceOf(tree).Some?
  {
    hide Good;
    NodeIs(g, N_L_VALUE, tree);
    LeafIs(g, RhsOf(tree.row)[0], tree.children[0]);
  }

  lemma ReadsText(g: Grammar, tree: Tree)
    requires Good(g, Phrase(N_STRING), tree)
    ensures TextOf(tree).Some?
  {
    hide Good;
    NodeIs(g, N_STRING, tree);
    LeafIs(g, RhsOf(tree.row)[0], tree.children[0]);
  }

  lemma ReadsEmpty(g: Grammar, n: nat, tree: Tree)
    requires n in {N_END_OF_IF, N_ELSIF_STATEMENT_REST, N_SIMPLE_ASSIGNMENT_REST} && Good(g, Phrase(n), tree)
    ensures Empty(tree)
  {
    hide Good;
    NodeIs(g, n, tree);
  }

  lemma {:induction false} ReadsArgs(g: Grammar, tree: Tree)
    requires Good(g, Phrase(N_VA), tree)
    ensures ArgsOf(tree).Some?
    decreases tree
  {
    hide Good, ExprOf;
    NodeIs(g, N_VA, tree);
    var cs, rhs := tree.children, RhsOf(tree.row);
    if |cs| == 3 {
      LeafIs(g, rhs[0], cs[0]);
      ReadsExpression(g, rhs[1], cs[1]);
      ReadsArgs(g, cs[2]);
    }
  }

  predicate UpdateShape(rhs: seq<Item>) {
    || (|rhs| == 2 && rhs[0].Word? && rhs[1] == Act(Inc))
    || (|rhs| == 2 && rhs[0].Word? && rhs[1] == Act(Dec))
    || (|rhs| == 3 && rhs[0].Word? && rhs[1] == Phrase(N_EXPRESSION) && rhs[2] == Act(Mov))
    || (&& |rhs| == 4 && rhs[0].Word? && rhs[1] == Phrase(N_EXPRESSION) && rhs[2] == Act(Mov)
        && rhs[3] == Phrase(N_SIMPLE_ASSIGNMENT_REST))
  }

  lemma UpdateRow(p: nat)
    requires p < ROWS && LhsOf(p) in {N_ASSIGNMENT_STATEMENT_REST, N_INC_DEC_REST} && p != BARE_STEP
    ensures UpdateShape(RhsOf(p))
  {
  }

  lemma ReadsUpdate(g: Grammar, n: nat, place: Place, tree: Tree)
    requires n in {N_ASSIGNMENT_STATEMENT_REST, N_INC_DEC_REST} && Good(g, Phrase(n), tree)
    ensures UpdateOf(place, tree).Some?
  {
    hide Good, LhsOf, RhsOf, ExprOf;
    NodeIs(g, n, tree);
    UpdateRow(tree.row);
    var cs, rhs := tree.children, RhsOf(tree.row);
    LeafIs(g, rhs[0], cs[0]);
    if |cs| == 2 {
      LeafIs(g, rhs[1], cs[1]);
    } else {
      ReadsExpression(g, rhs[1], cs[1]);
      LeafIs(g, rhs[2], cs[2]);
      if |cs| == 4 {
        ReadsEmpty(g, N_SIMPLE_ASSIGNMENT_REST, cs[3]);
      }
    }
  }

  lemma ReadsSimple(g: Grammar, n: nat, tree: Tree)
    requires n in {N_ASSIGNMENT_STATEMENT, N_INC_DEC} && Good(g, Phrase(n), tree)
    ensures SimpleOf(tree).Some? && |tree.children| == 2 && PlaceOf(tree.children[0]).Some?
    ensures !tree.children[1].Matched?
  {
    hide Good, PlaceOf, UpdateOf;
    NodeIs(g, n, tree);
    var cs, rhs := tree.children, RhsOf(tree.row);
    ReadsPlace(g, cs[0]);
    LeafIs(g, rhs[1], cs[1]);
    ReadsUpdate(g, rhs[1].nonTerminal, PlaceOf(cs[0]).value, cs[1]);
  }

  lemma ReadsInit(g: Grammar, tree: Tree)
    requires Good(g, Phrase(N_SIMPLE_ASSIGNMENT), tree)
    ensures InitOf(tree).Some?
  {
    hide Good, PlaceOf, ExprOf;
    NodeIs(g, N_SIMPLE_ASSIGNMENT, tree);
    var cs, rhs := tree.children, RhsOf(tree.row);
    if |cs| == 5 {
      ReadsPlace(g, cs[0]);
      LeafIs(g, rhs[1], cs[1]);
      ReadsExpression(g, rhs[2], cs[2]);
      LeafIs(g, rhs[3], cs[3]);
      ReadsEmpty(g, N_SIMPLE_ASSIGNMENT_REST, cs[4]);
    }
  }

  predicate CallShape(rhs: seq<Item>) {
    || Act(ForeignRule) in rhs
    || (&& |rhs| == 5 && rhs[0].Word? && rhs[1].Word? && rhs[2] == Phrase(N_EXPRESSION)
        && rhs[3].Act? && rhs[3].rule.ReportRule? && rhs[4].Word?)
    || (&& |rhs| == 7 && rhs[0].Word? && rhs[1].Word? && rhs[2] == Phrase(N_STRING) && rhs[3] == Act(VargStart)
        && rhs[4] == Phrase(N_VA) && rhs[5] == Act(PrintfRule) && rhs[6].Word?)
  }

  lemma CallRow(p: nat)
    requires p < ROWS && LhsOf(p) == N_CALL_FUNC_STATEMENT
    ensures CallShape(RhsOf(p))
  {
    hide CallShape, ReportRows, CallRows, MoreCallRows, LastCallRows, TwoArgumentCallRows;
    if p <= 22 {
      ReportShape(p);
    } else if p <= 30 {
      CallsAreForeign(p);
    } else if p <= 38 {
      MoreCallsAreForeign(p);
    } else if p <= 43 {
      LastCallsAreForeign(p);
    } else {
      TwoArgumentCallsAreForeign(p);
    }
  }

  lemma ReportShape(p: nat)
    requires 15 <= p <= 22
    ensures CallShape(ReportRows(p))
  {
  }

  lemma CallsAreForeign(p: nat)
    requires 23 <= p <= 30
    ensures CallShape(CallRows(p))
  {
  }

  lemma MoreCallsAreForeign(p: nat)
    requires 31 <= p <= 38
    ensures CallShape(MoreCallRows(p))
  {
  }

  lemma LastCallsAreForeign(p: nat)
    requires 39 <= p <= 43
    ensures CallShape(LastCallRows(p))
  {
  }

  lemma TwoArgumentCallsAreForeign(p: nat)
    requires 44 <= p <= 49
    ensures CallShape(TwoArgumentCallRows(p))
  {
  }

  lemma ReadsCall(g: Grammar, tree: Tree)
    requires Good(g, Phrase(N_CALL_FUNC_STATEMENT), tree)
    ensures StmtOf(g.inner, tree).Some?
  {
    hide Good, LhsOf, RhsOf, ExprOf, TextOf, ArgsOf;
    NodeIs(g, N_CALL_FUNC_STATEMENT, tree);
    CallRow(tree.row);
    var cs, rhs := tree.children, RhsOf(tree.row);
    LeafIs(g, rhs[0], cs[0]);
    LeafIs(g, rhs[1], cs[1]);
    LeafIs(g, rhs[3], cs[3]);
    if |cs| == 5 {
      ReadsExpression(g, rhs[2], cs[2]);
      LeafIs(g, rhs[4], cs[4]);
    } else {
      ReadsText(g, cs[2]);
      ReadsArgs(g, cs[4]);
      LeafIs(g, rhs[5], cs[5]);
      LeafIs(g, rhs[6], cs[6]);
    }
  }

  // ---------------------------------------------------------------- statements

  predicate IfItems(rhs: seq<Item>) {
    && |rhs| == 12
    && rhs[0].Word? && rhs[1] == Act(StartOfIf) && rhs[2].Word? && rhs[3].Boolean? && rhs[4] == Act(Jz)
    && rhs[5].Word? && rhs[6] == Phrase(N_S) && rhs[7].Word? && rhs[8] == Phrase(N_ELSIF_STATEMENT)
    && rhs[9] == Phrase(N_ELSE_STATEMENT) && rhs[10] == Act(EndOfIf) && rhs[11] == Phrase(N_END_OF_IF)
  }

  predicate ElsIfItems(rhs: seq<Item>) {
    && |rhs| == 9
    && rhs[0].Word? && rhs[1] == Act(JmpToEndAndJzCompleted) && rhs[2].Word? && rhs[3].Boolean? && rhs[4] == Act(Jz)
    && rhs[5].Word? && rhs[6] == Phrase(N_S) && rhs[7].Word? && rhs[8] == Phrase(N_ELSIF_STATEMENT)
  }

  predicate WhileItems(rhs: seq<Item>) {
    && |rhs| == 9
    && rhs[0].Word? && rhs[1] == Act(StartOfWhile) && rhs[2].Word? && rhs[3].Boolean?
    && rhs[4] == Act(StartOfWhileCommands) && rhs[5].Word? && rhs[6] == Phrase(N_S) && rhs[7] == Act(EndOfWhile)
    && rhs[8].Word?
  }

  predicate DoWhileItems(rhs: seq<Item>) {
    && |rhs| == 10
    && rhs[0].Word? && rhs[1] == Act(StartOfDoWhile) && rhs[2].Word? && rhs[3] == Phrase(N_S) && rhs[4].Word?
    && rhs[5].Word? && rhs[6].Word? && rhs[7].Boolean? && rhs[8] == Act(EndOfDoWhile) && rhs[9].Word?
  }

  predicate ForItems(rhs: seq<Item>) {
    && |rhs| == 14
    && rhs[0].Word? && rhs[1].Word? && rhs[2] == Phrase(N_SIMPLE_ASSIGNMENT) && rhs[3].Word?
    && rhs[4] == Act(StartOfFor) && rhs[5].Boolean? && rhs[6] == Act(ForIncDec) && rhs[7] == Phrase(N_INC_DEC)
    && rhs[8].Word? && rhs[9].Word? && rhs[10] == Act(StartOfForCommands) && rhs[11] == Phrase(N_S)
    && rhs[12] == Act(EndOfFor) && rhs[13].Word?
  }

  lemma LongRows()
    ensures IfItems(RhsOf(52)) && ElsIfItems(RhsOf(53))
    ensures WhileItems(RhsOf(59)) && DoWhileItems(RhsOf(60)) && ForItems(RhsOf(61))
  {
  }

  lemma WhileIs(g: Grammar, tree: Tree)
    requires Good(g, Phrase(N_WHILE_STATEMENT), tree)
    ensures tree.Node? && WhileShape(tree.children)
    ensures ConditionOf(g.inner, tree.children[3]).Some? && Good(g, Phrase(N_S), tree.children[6])
  {
    hide Good, RhsOf, ConditionOf;
    NodeIs(g, N_WHILE_STATEMENT, tree);
    LongRows();
    var cs, rhs := tree.children, RhsOf(59);
    LeafIs(g, rhs[0], cs[0]);
    LeafIs(g, rhs[1], cs[1]);
    LeafIs(g, rhs[2], cs[2]);
    LeafIs(g, rhs[3], cs[3]);
    LeafIs(g, rhs[4], cs[4]);
    LeafIs(g, rhs[5], cs[5]);
    LeafIs(g, rhs[7], cs[7]);
    LeafIs(g, rhs[8], cs[8]);
  }

  lemma DoWhileIs(g: Grammar, tree: Tree)
    requires Good(g, Phrase(N_DO_WHILE_STATEMENT), tree)
    ensures tree.Node? && DoWhileShape(tree.children)
    ensures ConditionOf(g.inner, tree.children[7]).Some? && Good(g, Phrase(N_S), tree.children[3])
  {
    hide Good, RhsOf, ConditionOf;
    NodeIs(g, N_DO_WHILE_STATEMENT, tree);
    LongRows();
    var cs, rhs := tree.children, RhsOf(60);
    LeafIs(g, rhs[0], cs[0]);
    LeafIs(g, rhs[1], cs[1]);
    LeafIs(g, rhs[2], cs[2]);
    LeafIs(g, rhs[4], cs[4]);
    LeafIs(g, rhs[5], cs[5]);
    LeafIs(g, rhs[6], cs[6]);
    LeafIs(g, rhs[7], cs[7]);
    LeafIs(g, rhs[8], cs[8]);
    LeafIs(g, rhs[9], cs[9]);
  }

  lemma ForIs(g: Grammar, tree: Tree)
    requires Good(g, Phrase(N_FOR_STATEMENT), tree)
    ensures tree.Node? && ForShape(tree.children)
    ensures ConditionOf(g.inner, tree.children[5]).Some? && Good(g, Phrase(N_SIMPLE_ASSIGNMENT), tree.children[2])
    ensures Good(g, Phrase(N_INC_DEC), tree.children[7]) && Good(g, Phrase(N_S), tree.children[11])
  {
    hide Good, RhsOf, ConditionOf;
    NodeIs(g, N_FOR_STATEMENT, tree);
    LongRows();
    var cs, rhs := tree.children, RhsOf(61);
    LeafIs(g, rhs[0], cs[0]);
    LeafIs(g, rhs[1], cs[1]);
    LeafIs(g, rhs[3], cs[3]);
    LeafIs(g, rhs[4], cs[4]);
    LeafIs(g, rhs[5], cs[5]);
    LeafIs(g, rhs[6], cs[6]);
    LeafIs(g, rhs[8], cs[8]);
    LeafIs(g, rhs[9], cs[9]);
    LeafIs(g, rhs[10], cs[10]);
    LeafIs(g, rhs[12], cs[12]);
    LeafIs(g, rhs[13], cs[13]);
  }

  lemma IfIs(g: Grammar, tree: Tree)
    requires Good(g, Phrase(N_IF_STATEMENT), tree)
    ensures tree.Node? && IfShape(tree.children)
    ensures ConditionOf(g.inner, tree.children[3]).Some? && Good(g, Phrase(N_S), tree.children[6])
    ensures Good(g, Phrase(N_ELSIF_STATEMENT), tree.children[8]) && Good(g, Phrase(N_ELSE_STATEMENT), tree.children[9])
  {
    hide Good, RhsOf, ConditionOf;
    NodeIs(g, N_IF_STATEMENT, tree);
    LongRows();
    var cs, rhs := tree.children, RhsOf(52);
    LeafIs(g, rhs[0], cs[0]);
    LeafIs(g, rhs[1], cs[1]);
    LeafIs(g, rhs[2], cs[2]);
    LeafIs(g, rhs[3], cs[3]);
    LeafIs(g, rhs[4], cs[4]);
    LeafIs(g, rhs[5], cs[5]);
    LeafIs(g, rhs[7], cs[7]);
    LeafIs(g, rhs[10], cs[10]);
    ReadsEmpty(g, N_END_OF_IF, cs[11]);
  }

  lemma ElsIfIs(g: Grammar, tree: Tree)
    requires Good(g, Phrase(N_ELSIF_STATEMENT), tree)
    ensures tree.Node?
    ensures
      var cs := tree.children;
      || (|cs| == 2 && cs[0] == Acted(JmpToEndAndJzCompleted) && Empty(cs[1]))
      || (&& ElsIfShape(cs) && ConditionOf(g.inner, cs[3]).Some? && Good(g, Phrase(N_S), cs[6])
          && Good(g, Phrase(N_ELSIF_STATEMENT), cs[8]))
  {
    hide Good, ConditionOf;
    NodeIs(g, N_ELSIF_STATEMENT, tree);
    LongRows();
    var cs, rhs := tree.children, RhsOf(tree.row);
    LeafIs(g, rhs[0], cs[0]);
    if tree.row == 54 {
      ReadsEmpty(g, N_ELSIF_STATEMENT_REST, cs[1]);
    } else {
      LeafIs(g, rhs[1], cs[1]);
      LeafIs(g, rhs[2], cs[2]);
      LeafIs(g, rhs[3], cs[3]);
      LeafIs(g, rhs[4], cs[4]);
      LeafIs(g, rhs[5], cs[5]);
      LeafIs(g, rhs[7], cs[7]);
    }
  }

  lemma ElseIs(g: Grammar, tree: Tree)
    requires Good(g, Phrase(N_ELSE_STATEMENT), tree)
    ensures tree.Node?
    ensures
      var cs := tree.children;
      || cs == []
      || (|cs| == 4 && cs[0].Matched? && cs[1].Matched? && cs[3].Matched? && Good(g, Phrase(N_S), cs[2]))
  {
    hide Good;
    NodeIs(g, N_ELSE_STATEMENT, tree);
    var cs, rhs := tree.children, RhsOf(tree.row);
    if tree.row == 56 {
      LeafIs(g, rhs[0], cs[0]);
      LeafIs(g, rhs[1], cs[1]);
      LeafIs(g, rhs[3], cs[3]);
    }
  }

  /** The rows of a sequence of statements. */
  lemma SequenceIs(g: Grammar, tree: Tree)
    requires Good(g, Phrase(N_S), tree)
    ensures tree.Node?
    ensures
      var cs := tree.children;
      || cs == []
      || (|cs| == 2 && cs[1].Node? && Good(g, Phrase(N_STATEMENT), cs[0]) && Good(g, Phrase(N_S), cs[1]))
      || (&& |cs| == 4 && cs[0].Matched? && cs[1].Node? && cs[3].Matched? && Good(g, Phrase(N_STATEMENT), cs[1])
          && Good(g, Phrase(N_S), cs[2]))
  {
    hide Good;
    NodeIs(g, N_S, tree);
    var cs, rhs := tree.children, RhsOf(tree.row);
    if |cs| == 2 {
      LeafIs(g, rhs[1], cs[1]);
    } else if |cs| == 4 {
      LeafIs(g, rhs[0], cs[0]);
      LeafIs(g, rhs[1], cs[1]);
      LeafIs(g, rhs[3], cs[3]);
    }
  }

  /** The rows of one statement; none of them is a place. */
  lemma StatementIs(g: Grammar, tree: Tree)
    requires Good(g, Phrase(N_STATEMENT), tree)
    ensures tree.Node? && PlaceOf(tree).None?
    ensures
      var cs := tree.children;
      || (|cs| == 1 && cs[0].Node? && LongStatement(g, cs[0]))
      || (|cs| == 2 && cs[1].Matched? && Good(g, Phrase(N_ASSIGNMENT_STATEMENT), cs[0]))
      || (|cs| == 2 && cs[1].Matched? && Good(g, Phrase(N_CALL_FUNC_STATEMENT), cs[0]))
      || (&& |cs| == 3 && cs[0].Matched? && cs[2].Matched?
          && (cs[1] == Acted(BreakRule) || cs[1] == Acted(ContinueRule)))
  {
    hide Good;
    NodeIs(g, N_STATEMENT, tree);
    var cs, rhs := tree.children, RhsOf(tree.row);
    LeafIs(g, rhs[0], cs[0]);
    if |cs| >= 2 {
      LeafIs(g, rhs[1], cs[1]);
    }
    if |cs| == 3 {
      LeafIs(g, rhs[2], cs[2]);
    }
  }

  ghost predicate LongStatement(g: Grammar, tree: Tree) {
    || Good(g, Phrase(N_IF_STATEMENT), tree)
    || Good(g, Phrase(N_WHILE_STATEMENT), tree)
    || Good(g, Phrase(N_DO_WHILE_STATEMENT), tree)
    || Good(g, Phrase(N_FOR_STATEMENT), tree)
  }

  lemma ReadsAssignment(g: Grammar, tree: Tree)
    requires Good(g, Phrase(N_ASSIGNMENT_STATEMENT), tree)
    ensures StmtOf(g.inner, tree).Some?
  {
    hide Good, PlaceOf, SimpleOf;
    NodeIs(g, N_ASSIGNMENT_STATEMENT, tree);
    ReadsSimple(g, N_ASSIGNMENT_STATEMENT, tree);
  }

  lemma {:induction false} ReadsSequence(g: Grammar, tree: Tree)
    requires Good(g, Phrase(N_S), tree)
    ensures StmtOf(g.inner, tree).Some?
    decreases tree, 1
  {
    hide Good, PlaceOf, ReportOf, PrintfOf, LongOf;
    SequenceIs(g, tree);
    var cs := tree.children;
    if |cs| == 2 {
      StatementIs(g, cs[0]);
      ReadsStatement(g, cs[0]);
      ReadsSequence(g, cs[1]);
    } else if |cs| == 4 {
      ReadsStatement(g, cs[1]);
      ReadsSequence(g, cs[2]);
    }
  }

  lemma {:induction false} ReadsStatement(g: Grammar, tree: Tree)
    requires Good(g, Phrase(N_STATEMENT), tree)
    ensures StmtOf(g.inner, tree).Some?
    decreases tree, 1
  {
    hide Good, PlaceOf, SimpleOf, ReportOf, PrintfOf, LongOf, LongStatement;
    StatementIs(g, tree);
    var cs := tree.children;
    if |cs| == 1 {
      ReadsLong(g, cs[0]);
    } else if |cs| == 2 {
      if Good(g, Phrase(N_ASSIGNMENT_STATEMENT), cs[0]) {
        ReadsAssignment(g, cs[0]);
      } else {
        ReadsCall(g, cs[0]);
      }
    }
  }

  lemma {:induction false} ReadsLong(g: Grammar, tree: Tree)
    requires LongStatement(g, tree)
    ensures StmtOf(g.inner, tree).Some?
    decreases tree, 1
  {
    hide Good, PlaceOf, SimpleOf, InitOf, ReportOf, PrintfOf, ConditionOf, BranchesOf, ElseOf;
    if Good(g, Phrase(N_WHILE_STATEMENT), tree) {
      WhileIs(g, tree);
      ReadsSequence(g, tree.children[6]);
    } else if Good(g, Phrase(N_DO_WHILE_STATEMENT), tree) {
      DoWhileIs(g, tree);
      ReadsSequence(g, tree.children[3]);
    } else if Good(g, Phrase(N_FOR_STATEMENT), tree) {
      ForIs(g, tree);
      ReadsInit(g, tree.children[2]);
      ReadsSimple(g, N_INC_DEC, tree.children[7]);
      ReadsSequence(g, tree.children[11]);
    } else {
      IfIs(g, tree);
      ReadsSequence(g, tree.children[6]);
      ReadsElse(g, tree.children[9]);
      ReadsBranches(g, tree.children[8], ElseOf(g.inner, tree.children[9]));
    }
  }

  lemma {:induction false} ReadsElse(g: Grammar, tree: Tree)
    requires Good(g, Phrase(N_ELSE_STATEMENT), tree)
    ensures ElseOf(g.inner, tree).Some?
    decreases tree, 1
  {
    hide Good, StmtOf;
    ElseIs(g, tree);
    if |tree.children| == 4 {
      ReadsSequence(g, tree.children[2]);
    }
  }

  lemma {:induction false} ReadsBranches(g: Grammar, tree: Tree, last: Option<Stmt>)
    requires Good(g, Phrase(N_ELSIF_STATEMENT), tree) && last.Some?
    ensures BranchesOf(g.inner, tree, last).Some?
    decreases tree, 1
  {
    hide Good, StmtOf, ConditionOf;
    ElsIfIs(g, tree);
    if |tree.children| != 2 {
      ReadsSequence(g, tree.children[6]);
      ReadsBranches(g, tree.children[8], last);
    }
  }
}
