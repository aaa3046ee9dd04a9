/**
 Derivation trees read as statements.  The reading looks at the shape of a node
 and the rules among its children only; what it finds is what the driver's actions
 compile.
 */
module Reading {
  import opened Words
  import opened Script
  import opened Ll
  import Lalr
  import Parsing

  // ---------------------------------------------------------------- expressions

  function OperandOf(tree: Tree): Option<Expr> {
    if !tree.Pushed? then None
    else
      match tree.lexeme.push
      case Some(PushNumber(n)) => Some(Number(n))
      case Some(PushPlace(p)) => Some(Read(p))
      case _ => None
  }

  /** A unary operator between two brackets or after its argument. */
  predicate Applies(tree: Tree) {
    tree.Acted? && tree.rule.UnaryRule?
  }

  function Applied(tree: Tree, arg: Option<Expr>): Option<Expr>
    requires Applies(tree)
  {
    match arg
    case Some(e) => Some(Unary(tree.rule.uop, e))
    case None => None
  }

  function ExprOf(tree: Tree): Option<Expr>
    decreases tree
  {
    if !tree.Node? then None
    else
      var cs := tree.children;
      if |cs| == 1 then OperandOf(cs[0])
      else if |cs| == 2 && cs[0].Node? then
        (match ExprOf(cs[0]) case Some(e) => TailOf(e, cs[1]) case None => None)
      else if |cs| == 2 && cs[0].Matched? then ExprOf(cs[1])
      else if |cs| == 3 && cs[0].Matched? && cs[2].Matched? then ExprOf(cs[1])
      else if |cs| == 3 && cs[0].Matched? && Applies(cs[2]) then Applied(cs[2], ExprOf(cs[1]))
      else if |cs| == 5 && cs[0].Matched? && cs[1].Matched? && Applies(cs[3]) && cs[4].Matched? then
        Applied(cs[3], ExprOf(cs[2]))
      else None
  }

  /** The operators to the right of `left` on one level of precedence, from left to right. */
  function TailOf(left: Expr, tree: Tree): Option<Expr>
    decreases tree
  {
    if !tree.Node? then None
    else
      var cs := tree.children;
      if |cs| == 0 then Some(left)
      else if |cs| == 4 && cs[0].Matched? && cs[2].Acted? && cs[2].rule.BinaryRule? then
        (match ExprOf(cs[1]) case Some(e) => TailOf(Binary(cs[2].rule.bop, left, e), cs[3]) case None => None)
      else None
  }

  // ---------------------------------------------------------------- simple statements

  function PlaceOf(tree: Tree): Option<Place> {
    if tree.Node? && |tree.children| == 1 then
      (match OperandOf(tree.children[0]) case Some(Read(p)) => Some(p) case _ => None)
    else None
  }

  /** What is done to a place: counted up, counted down, or assigned. */
  function UpdateOf(place: Place, tree: Tree): Option<Simple> {
    if !tree.Node? then None
    else
      var cs := tree.children;
      if |cs| == 2 && cs[0].Matched? && cs[1] == Acted(Inc) then Some(Increment(place))
      else if |cs| == 2 && cs[0].Matched? && cs[1] == Acted(Dec) then Some(Decrement(place))
      else if |cs| == 3 && cs[0].Matched? && cs[2] == Acted(Mov) then
        (match ExprOf(cs[1]) case Some(e) => Some(Assign(place, e)) case None => None)
      else if |cs| == 4 && cs[0].Matched? && cs[2] == Acted(Mov) && Empty(cs[3]) then
        (match ExprOf(cs[1]) case Some(e) => Some(Assign(place, e)) case None => None)
      else None
  }

  predicate Empty(tree: Tree) {
    tree.Node? && tree.children == []
  }

  function SimpleOf(tree: Tree): Option<Simple> {
    if tree.Node? && |tree.children| == 2 then
      (match PlaceOf(tree.children[0]) case Some(p) => UpdateOf(p, tree.children[1]) case None => None)
    else None
  }

  /** The first part of a `for` header: an assignment or nothing. */
  function InitOf(tree: Tree): Option<Stmt> {
    if !tree.Node? then None
    else
      var cs := tree.children;
      if |cs| == 0 then Some(Skip)
      else if |cs| == 5 && cs[1].Matched? && cs[3] == Acted(Mov) && Empty(cs[4]) then
        (match PlaceOf(cs[0])
         case Some(p) => (match ExprOf(cs[2]) case Some(e) => Some(Do(Assign(p, e))) case None => None)
         case None => None)
      else None
  }

  function TextOf(tree: Tree): Option<string> {
    if tree.Node? && |tree.children| == 1 && tree.children[0].Pushed? then
      (match tree.children[0].lexeme.push case Some(PushString(text)) => Some(text) case _ => None)
    else None
  }

  function ArgsOf(tree: Tree): Option<seq<Expr>>
    decreases tree
  {
    if !tree.Node? then None
    else
      var cs := tree.children;
      if |cs| == 0 then Some([])
      else if |cs| == 3 && cs[0].Matched? then
        (match ExprOf(cs[1])
         case Some(e) => (match ArgsOf(cs[2]) case Some(es) => Some([e] + es) case None => None)
         case None => None)
      else None
  }

  function ReportOf(cs: seq<Tree>): Option<Stmt>
    requires |cs| == 5
  {
    if cs[0].Matched? && cs[1].Matched? && cs[3].Acted? && cs[3].rule.ReportRule? && cs[4].Matched? then
      (match ExprOf(cs[2]) case Some(e) => Some(Call(cs[3].rule.report, e)) case None => None)
    else None
  }

  function PrintfOf(cs: seq<Tree>): Option<Stmt>
    requires |cs| == 7
  {
    if cs[0].Matched? && cs[1].Matched? && cs[3] == Acted(VargStart) && cs[5] == Acted(PrintfRule) &&
        cs[6].Matched? then
      (match TextOf(cs[2])
       case Some(f) => (match ArgsOf(cs[4]) case Some(es) => Some(Printf(f, es)) case None => None)
       case None => None)
    else None
  }

  // ---------------------------------------------------------------- statements

  function ConditionOf(t: Lalr.Tables, tree: Tree): Option<Expr> {
    if tree.Condensed? then Parsing.ExprOf(t, tree.parse) else None
  }

  predicate IfShape(cs: seq<Tree>) {
    && |cs| == 12
    && cs[0].Matched? && cs[1] == Acted(StartOfIf) && cs[2].Matched? && cs[4] == Acted(Jz) && cs[5].Matched?
    && cs[7].Matched? && cs[10] == Acted(EndOfIf) && Empty(cs[11])
  }

  predicate ElsIfShape(cs: seq<Tree>) {
    && |cs| == 9
    && cs[0].Matched? && cs[1] == Acted(JmpToEndAndJzCompleted) && cs[2].Matched? && cs[4] == Acted(Jz)
    && cs[5].Matched? && cs[7].Matched?
  }

  predicate WhileShape(cs: seq<Tree>) {
    && |cs| == 9
    && cs[0].Matched? && cs[1] == Acted(StartOfWhile) && cs[2].Matched? && cs[4] == Acted(StartOfWhileCommands)
    && cs[5].Matched? && cs[7] == Acted(EndOfWhile) && cs[8].Matched?
  }

  predicate DoWhileShape(cs: seq<Tree>) {
    && |cs| == 10
    && cs[0].Matched? && cs[1] == Acted(StartOfDoWhile) && cs[2].Matched? && cs[4].Matched? && cs[5].Matched?
    && cs[6].Matched? && cs[8] == Acted(EndOfDoWhile) && cs[9].Matched?
  }

  predicate ForShape(cs: seq<Tree>) {
    && |cs| == 14
    && cs[0].Matched? && cs[1].Matched? && cs[3].Matched? && cs[4] == Acted(StartOfFor)
    && cs[6] == Acted(ForIncDec) && cs[8].Matched? && cs[9].Matched? && cs[10] == Acted(StartOfForCommands)
    && cs[12] == Acted(EndOfFor) && cs[13].Matched?
  }

  function Both(a: Option<Stmt>, b: Option<Stmt>): Option<Stmt> {
    if a.Some? && b.Some? then Some(Seq(a.value, b.value)) else None
  }

  function Looped(c: Option<Expr>, b: Option<Stmt>): Option<Stmt> {
    if c.Some? && b.Some? then Some(While(c.value, b.value)) else None
  }

  function LoopedOnce(b: Option<Stmt>, c: Option<Expr>): Option<Stmt> {
    if c.Some? && b.Some? then Some(DoWhile(b.value, c.value)) else None
  }

  function Counted(i: Option<Stmt>, c: Option<Expr>, step: Option<Simple>, b: Option<Stmt>): Option<Stmt> {
    if i.Some? && c.Some? && step.Some? && b.Some? then Some(Seq(i.value, For(c.value, step.value, b.value)))
    else None
  }

  function Chosen(c: Option<Expr>, b: Option<Stmt>, rest: Option<Branches>): Option<Stmt> {
    if c.Some? && b.Some? && rest.Some? then Some(If(c.value, b.value, rest.value)) else None
  }

  function StmtOf(t: Lalr.Tables, tree: Tree): Option<Stmt>
    decreases tree, 1
  {
    if !tree.Node? then None
    else
      var cs := tree.children;
      if |cs| == 0 then Some(Skip)
      else if |cs| == 1 then StmtOf(t, cs[0])
      else if |cs| == 2 && cs[1].Matched? then StmtOf(t, cs[0])
      else if |cs| == 2 && PlaceOf(cs[0]).Some? then
        (match SimpleOf(tree) case Some(a) => Some(Do(a)) case None => None)
      else if |cs| == 2 then Both(StmtOf(t, cs[0]), StmtOf(t, cs[1]))
      else if |cs| == 3 && cs[0].Matched? && cs[1] == Acted(BreakRule) && cs[2].Matched? then Some(Break)
      else if |cs| == 3 && cs[0].Matched? && cs[1] == Acted(ContinueRule) && cs[2].Matched? then Some(Continue)
      else if |cs| == 4 && cs[0].Matched? && cs[3].Matched? then Both(StmtOf(t, cs[1]), StmtOf(t, cs[2]))
      else if |cs| == 5 then ReportOf(cs)
      else if |cs| == 7 then PrintfOf(cs)
      else LongOf(t, cs)
  }

  /** If, while, do and for. */
  function LongOf(t: Lalr.Tables, cs: seq<Tree>): Option<Stmt>
    decreases cs, 0
  {
    if WhileShape(cs) then Looped(ConditionOf(t, cs[3]), StmtOf(t, cs[6]))
    else if DoWhileShape(cs) then LoopedOnce(StmtOf(t, cs[3]), ConditionOf(t, cs[7]))
    else if ForShape(cs) then
      Counted(InitOf(cs[2]), ConditionOf(t, cs[5]), SimpleOf(cs[7]), StmtOf(t, cs[11]))
    else if IfShape(cs) then
      Chosen(ConditionOf(t, cs[3]), StmtOf(t, cs[6]), BranchesOf(t, cs[8], ElseOf(t, cs[9])))
    else None
  }

  /** The `elsif` branches, with what the `else` after them was read as. */
  function BranchesOf(t: Lalr.Tables, tree: Tree, last: Option<Stmt>): Option<Branches>
    decreases tree, 1
  {
    if !tree.Node? || last.None? then None
    else
      var cs := tree.children;
      if |cs| == 2 && cs[0] == Acted(JmpToEndAndJzCompleted) && Empty(cs[1]) then Some(Else(last.value))
      else if ElsIfShape(cs) then
        var c, b, rest := ConditionOf(t, cs[3]), StmtOf(t, cs[6]), BranchesOf(t, cs[8], last);
        if c.Some? && b.Some? && rest.Some? then Some(ElsIf(c.value, b.value, rest.value)) else None
      else None
  }

  function ElseOf(t: Lalr.Tables, tree: Tree): Option<Stmt>
    decreases tree, 1
  {
    if !tree.Node? then None
    else
      var cs := tree.children;
      if |cs| == 0 then Some(Skip)
      else if |cs| == 4 && cs[0].Matched? && cs[1].Matched? && cs[3].Matched? then StmtOf(t, cs[2])
      else None
  }

  // ---------------------------------------------------------------- the actions of what is read

  /** The actions of the children from number `i` on. */
  function From(t: Lalr.Tables, cs: seq<Tree>, i: nat): seq<Action>
    decreases |cs| - i
  {
    if i >= |cs| then [] else Actions(t, cs[i]) + From(t, cs, i + 1)
  }

  lemma {:induction false} FromIs(t: Lalr.Tables, cs: seq<Tree>, i: nat)
    requires i <= |cs|
    ensures From(t, cs, i) == AllActions(t, cs[i..])
    decreases |cs| - i
  {
    hide Actions;
    if i < |cs| {
      FromIs(t, cs, i + 1);
      assert cs[i..][1..] == cs[i + 1..];
    }
  }

  lemma Peel(t: Lalr.Tables, cs: seq<Tree>, i: nat)
    requires i < |cs|
    ensures From(t, cs, i) == Actions(t, cs[i]) + From(t, cs, i + 1)
    ensures From(t, cs, |cs|) == []
  {
  }

  /** Tokens and empty nodes do nothing. */
  lemma Pass(t: Lalr.Tables, cs: seq<Tree>, i: nat)
    requires i < |cs| && (cs[i].Matched? || Empty(cs[i]))
    ensures From(t, cs, i) == From(t, cs, i + 1)
    ensures From(t, cs, |cs|) == []
  {
    assert AllActions(t, []) == [];
  }

  lemma Fires(t: Lalr.Tables, cs: seq<Tree>, i: nat)
    requires i < |cs| && cs[i].Acted?
    ensures From(t, cs, i) == [Generate(cs[i].rule)] + From(t, cs, i + 1)
    ensures From(t, cs, |cs|) == []
  {
  }

  /** A last child. */
  lemma Last(t: Lalr.Tables, cs: seq<Tree>, i: nat)
    requires i < |cs| && From(t, cs, i + 1) == []
    ensures From(t, cs, i) == Actions(t, cs[i])
  {
  }

  /** A node's actions are those of its children. */
  lemma Whole(t: Lalr.Tables, tree: Tree)
    requires tree.Node?
    ensures Actions(t, tree) == From(t, tree.children, 0)
    ensures From(t, tree.children, |tree.children|) == []
  {
    assert tree.children[0..] == tree.children;
    FromIs(t, tree.children, 0);
  }

  lemma Assoc3<T>(a: seq<T>, b: seq<T>, c: seq<T>)
    ensures a + (b + c) == a + b + c
  {
  }

  lemma OperandActs(t: Lalr.Tables, tree: Tree)
    requires OperandOf(tree).Some?
    ensures Actions(t, tree) == ExprActions(OperandOf(tree).value)
  {
  }

  /** An expression's tree compiles the expression. */
  lemma {:induction false} ExprActs(t: Lalr.Tables, tree: Tree)
    requires ExprOf(tree).Some?
    ensures Actions(t, tree) == ExprActions(ExprOf(tree).value)
    decreases tree
  {
    hide Actions, AllActions, From, OperandOf, TailOf;
    var cs := tree.children;
    Whole(t, tree);
    if |cs| == 1 {
      OperandActs(t, cs[0]);
      Last(t, cs, 0);
    } else if |cs| == 2 && cs[0].Node? {
      Last(t, cs, 1);
      Peel(t, cs, 0);
      ExprActs(t, cs[0]);
      TailActs(t, ExprOf(cs[0]).value, cs[1]);
    } else if |cs| == 2 {
      Last(t, cs, 1);
      Pass(t, cs, 0);
      ExprActs(t, cs[1]);
    } else if |cs| == 3 && cs[2].Matched? {
      BracketActs(t, tree);
      ExprActs(t, cs[1]);
    } else if |cs| == 3 {
      Fires(t, cs, 2);
      Peel(t, cs, 1);
      Pass(t, cs, 0);
      ExprActs(t, cs[1]);
    } else {
      Pass(t, cs, 4);
      Fires(t, cs, 3);
      Peel(t, cs, 2);
      Pass(t, cs, 1);
      Pass(t, cs, 0);
      ExprActs(t, cs[2]);
    }
  }

  lemma BracketActs(t: Lalr.Tables, tree: Tree)
    requires tree.Node? && |tree.children| == 3 && tree.children[0].Matched? && tree.children[2].Matched?
    ensures Actions(t, tree) == Actions(t, tree.children[1])
  {
    hide Actions, AllActions, From;
    var cs := tree.children;
    Whole(t, tree);
    Pass(t, cs, 2);
    Last(t, cs, 1);
    Pass(t, cs, 0);
  }

  lemma {:induction false} TailActs(t: Lalr.Tables, left: Expr, tree: Tree)
    requires TailOf(left, tree).Some?
    ensures ExprActions(left) + Actions(t, tree) == ExprActions(TailOf(left, tree).value)
    decreases tree
  {
    hide Actions, AllActions, From, ExprOf;
    var cs := tree.children;
    Whole(t, tree);
    if |cs| == 4 {
      Last(t, cs, 3);
      Fires(t, cs, 2);
      Peel(t, cs, 1);
      Pass(t, cs, 0);
      var e := ExprOf(cs[1]).value;
      ExprActs(t, cs[1]);
      TailActs(t, Binary(cs[2].rule.bop, left, e), cs[3]);
      Shift(ExprActions(left), ExprActions(e), [Generate(BinaryRule(cs[2].rule.bop))], Actions(t, cs[3]));
    }
  }

  lemma Shift<T>(a: seq<T>, b: seq<T>, c: seq<T>, d: seq<T>)
    ensures a + (b + (c + d)) == a + b + c + d
  {
  }

  lemma PlaceActs(t: Lalr.Tables, tree: Tree)
    requires PlaceOf(tree).Some?
    ensures Actions(t, tree) == [PushPlace(PlaceOf(tree).value)]
  {
    hide Actions, AllActions, From, OperandOf;
    var cs := tree.children;
    Whole(t, tree);
    Last(t, cs, 0);
    OperandActs(t, cs[0]);
  }

  lemma SimpleActs(t: Lalr.Tables, tree: Tree)
    requires SimpleOf(tree).Some?
    ensures Actions(t, tree) == SimpleActions(SimpleOf(tree).value)
  {
    hide Actions, AllActions, From, PlaceOf, UpdateOf, SimpleActions;
    var cs := tree.children;
    Whole(t, tree);
    Last(t, cs, 1);
    Peel(t, cs, 0);
    PlaceActs(t, cs[0]);
    UpdateActs(t, PlaceOf(cs[0]).value, cs[1]);
  }

  lemma UpdateActs(t: Lalr.Tables, place: Place, tree: Tree)
    requires UpdateOf(place, tree).Some?
    ensures [PushPlace(place)] + Actions(t, tree) == SimpleActions(UpdateOf(place, tree).value)
  {
    hide Actions, AllActions, From, ExprOf, ExprActions;
    var cs := tree.children;
    Whole(t, tree);
    if |cs| == 2 {
      Fires(t, cs, 1);
      Pass(t, cs, 0);
    } else if |cs| == 3 {
      Fires(t, cs, 2);
      Peel(t, cs, 1);
      Pass(t, cs, 0);
      ExprActs(t, cs[1]);
      Assoc3([PushPlace(place)], Actions(t, cs[1]), [Generate(Mov)]);
    } else {
      Pass(t, cs, 3);
      Fires(t, cs, 2);
      Peel(t, cs, 1);
      Pass(t, cs, 0);
      ExprActs(t, cs[1]);
      Assoc3([PushPlace(place)], Actions(t, cs[1]), [Generate(Mov)]);
    }
  }

  lemma InitActs(t: Lalr.Tables, tree: Tree)
    requires InitOf(tree).Some?
    ensures Actions(t, tree) == StmtActions(InitOf(tree).value)
  {
    hide Actions, AllActions, From, PlaceOf, ExprOf, ExprActions;
    var cs := tree.children;
    Whole(t, tree);
    if |cs| == 5 {
      Pass(t, cs, 4);
      Fires(t, cs, 3);
      Peel(t, cs, 2);
      Pass(t, cs, 1);
      Peel(t, cs, 0);
      PlaceActs(t, cs[0]);
      ExprActs(t, cs[2]);
      Assoc3(Actions(t, cs[0]), Actions(t, cs[2]), [Generate(Mov)]);
    }
  }

  lemma TextActs(t: Lalr.Tables, tree: Tree)
    requires TextOf(tree).Some?
    ensures Actions(t, tree) == [PushString(TextOf(tree).value)]
  {
    hide AllActions, From;
    var cs := tree.children;
    Whole(t, tree);
    Last(t, cs, 0);
  }

  lemma {:induction false} ArgsActs(t: Lalr.Tables, tree: Tree)
    requires ArgsOf(tree).Some?
    ensures Actions(t, tree) == ArgsActions(ArgsOf(tree).value)
    decreases tree
  {
    hide Actions, AllActions, From, ExprOf, ExprActions;
    var cs := tree.children;
    Whole(t, tree);
    if |cs| == 3 {
      Last(t, cs, 2);
      Peel(t, cs, 1);
      Pass(t, cs, 0);
      ExprActs(t, cs[1]);
      ArgsActs(t, cs[2]);
      var es := ArgsOf(cs[2]).value;
      assert ([ExprOf(cs[1]).value] + es)[1..] == es;
    }
  }

  lemma ReportActs(t: Lalr.Tables, tree: Tree)
    requires tree.Node? && |tree.children| == 5 && ReportOf(tree.children).Some?
    ensures Actions(t, tree) == StmtActions(ReportOf(tree.children).value)
  {
    hide Actions, AllActions, From, ExprOf, ExprActions;
    var cs := tree.children;
    Whole(t, tree);
    Pass(t, cs, 4);
    Fires(t, cs, 3);
    Peel(t, cs, 2);
    Pass(t, cs, 1);
    Pass(t, cs, 0);
    ExprActs(t, cs[2]);
  }

  lemma PrintfActs(t: Lalr.Tables, tree: Tree)
    requires tree.Node? && |tree.children| == 7 && PrintfOf(tree.children).Some?
    ensures Actions(t, tree) == StmtActions(PrintfOf(tree.children).value)
  {
    hide Actions, AllActions, From, ArgsOf, ArgsActions, TextOf;
    var cs := tree.children;
    Whole(t, tree);
    Pass(t, cs, 6);
    Fires(t, cs, 5);
    Peel(t, cs, 4);
    Fires(t, cs, 3);
    Peel(t, cs, 2);
    Pass(t, cs, 1);
    Pass(t, cs, 0);
    TextActs(t, cs[2]);
    ArgsActs(t, cs[4]);
    Shift(Actions(t, cs[2]), [Generate(VargStart)], Actions(t, cs[4]), [Generate(PrintfRule)]);
    assert Actions(t, cs[2]) + [Generate(VargStart)] == [Actions(t, cs[2])[0], Generate(VargStart)];
  }

  lemma ConditionActs(t: Lalr.Tables, tree: Tree)
    requires ConditionOf(t, tree).Some?
    ensures Actions(t, tree) == ExprActions(ConditionOf(t, tree).value)
  {
    hide ExprActions, Parsing.ExprOf, Lalr.Postorder;
    Parsing.TreeIsExpression(t, tree.parse);
  }

  // The actions of the long rows, innermost bracket last.

  lemma IfPieces(t: Lalr.Tables, cs: seq<Tree>)
    requires IfShape(cs)
    ensures From(t, cs, 0) ==
            [Generate(StartOfIf)] + (Actions(t, cs[3]) + ([Generate(Jz)] + (Actions(t, cs[6]) + (Actions(t, cs[8])
            + (Actions(t, cs[9]) + [Generate(EndOfIf)])))))
  {
    hide Actions, AllActions, From;
    Pass(t, cs, 11);
    Fires(t, cs, 10);
    Peel(t, cs, 9);
    Peel(t, cs, 8);
    Pass(t, cs, 7);
    Peel(t, cs, 6);
    Pass(t, cs, 5);
    Fires(t, cs, 4);
    Peel(t, cs, 3);
    Pass(t, cs, 2);
    Fires(t, cs, 1);
    Pass(t, cs, 0);
  }

  lemma ElsIfPieces(t: Lalr.Tables, cs: seq<Tree>)
    requires ElsIfShape(cs)
    ensures From(t, cs, 0) ==
            [Generate(JmpToEndAndJzCompleted)] + (Actions(t, cs[3]) + ([Generate(Jz)] + (Actions(t, cs[6])
            + Actions(t, cs[8]))))
  {
    hide Actions, AllActions, From;
    Peel(t, cs, 8);
    Last(t, cs, 8);
    Pass(t, cs, 7);
    Peel(t, cs, 6);
    Pass(t, cs, 5);
    Fires(t, cs, 4);
    Peel(t, cs, 3);
    Pass(t, cs, 2);
    Fires(t, cs, 1);
    Pass(t, cs, 0);
  }

  lemma WhilePieces(t: Lalr.Tables, cs: seq<Tree>)
    requires WhileShape(cs)
    ensures From(t, cs, 0) ==
            [Generate(StartOfWhile)] + (Actions(t, cs[3]) + ([Generate(StartOfWhileCommands)] + (Actions(t, cs[6])
            + [Generate(EndOfWhile)])))
  {
    hide Actions, AllActions, From;
    Pass(t, cs, 8);
    Fires(t, cs, 7);
    Peel(t, cs, 6);
    Pass(t, cs, 5);
    Fires(t, cs, 4);
    Peel(t, cs, 3);
    Pass(t, cs, 2);
    Fires(t, cs, 1);
    Pass(t, cs, 0);
  }

  lemma DoWhilePieces(t: Lalr.Tables, cs: seq<Tree>)
    requires DoWhileShape(cs)
    ensures From(t, cs, 0) ==
            [Generate(StartOfDoWhile)] + (Actions(t, cs[3]) + (Actions(t, cs[7]) + [Generate(EndOfDoWhile)]))
  {
    hide Actions, AllActions, From;
    Pass(t, cs, 9);
    Fires(t, cs, 8);
    Peel(t, cs, 7);
    Pass(t, cs, 6);
    Pass(t, cs, 5);
    Pass(t, cs, 4);
    Peel(t, cs, 3);
    Pass(t, cs, 2);
    Fires(t, cs, 1);
    Pass(t, cs, 0);
  }

  lemma ForPieces(t: Lalr.Tables, cs: seq<Tree>)
    requires ForShape(cs)
    ensures From(t, cs, 0) ==
            Actions(t, cs[2]) + ([Generate(StartOfFor)] + (Actions(t, cs[5]) + ([Generate(ForIncDec)]
            + (Actions(t, cs[7]) + ([Generate(StartOfForCommands)] + (Actions(t, cs[11]) + [Generate(EndOfFor)]))))))
  {
    hide Actions, AllActions, From;
    Pass(t, cs, 13);
    Fires(t, cs, 12);
    Peel(t, cs, 11);
    Fires(t, cs, 10);
    Pass(t, cs, 9);
    Pass(t, cs, 8);
    Peel(t, cs, 7);
    Fires(t, cs, 6);
    Peel(t, cs, 5);
    Fires(t, cs, 4);
    Pass(t, cs, 3);
    Peel(t, cs, 2);
    Pass(t, cs, 1);
    Pass(t, cs, 0);
  }

  lemma Assoc5<T>(a: seq<T>, b: seq<T>, c: seq<T>, d: seq<T>, e: seq<T>)
    ensures a + (b + (c + (d + e))) == a + b + c + d + e
  {
    Assoc3(c, d, e);
    Shift(a, b, c + d, e);
    Assoc3(a + b, c, d);
  }

  lemma Assoc7<T>(a: seq<T>, b: seq<T>, c: seq<T>, d: seq<T>, e: seq<T>, f: seq<T>, h: seq<T>)
    ensures a + (b + (c + (d + (e + (f + h))))) == a + b + c + d + e + f + h
  {
    Assoc5(a, b, c, d, e + (f + h));
    Shift(a + b + c + d, e, f, h);
    Assoc3(a + b + c + d, e, f + h);
  }

  /** What a tree is read as is what its actions compile. */
  lemma {:induction false} StmtActs(t: Lalr.Tables, tree: Tree)
    requires StmtOf(t, tree).Some?
    ensures Actions(t, tree) == StmtActions(StmtOf(t, tree).value)
    decreases tree, 1
  {
    hide Actions, AllActions, From, PlaceOf, SimpleOf, SimpleActions, ReportOf, PrintfOf, LongOf;
    var cs := tree.children;
    Whole(t, tree);
    if |cs| == 1 {
      Last(t, cs, 0);
      StmtActs(t, cs[0]);
    } else if |cs| == 2 && cs[1].Matched? {
      Pass(t, cs, 1);
      Last(t, cs, 0);
      StmtActs(t, cs[0]);
    } else if |cs| == 2 && PlaceOf(cs[0]).Some? {
      SimpleActs(t, tree);
    } else if |cs| == 2 {
      Last(t, cs, 1);
      Peel(t, cs, 0);
      StmtActs(t, cs[0]);
      StmtActs(t, cs[1]);
    } else if |cs| == 3 {
      NotLong(t, cs);
      Pass(t, cs, 2);
      Fires(t, cs, 1);
      Pass(t, cs, 0);
    } else if |cs| == 4 {
      NotLong(t, cs);
      BlockActs(t, tree);
      StmtActs(t, cs[1]);
      StmtActs(t, cs[2]);
    } else if |cs| == 5 {
      ReportActs(t, tree);
    } else if |cs| == 7 {
      PrintfActs(t, tree);
    } else if |cs| > 0 {
      LongActs(t, cs);
    }
  }

  lemma NotLong(t: Lalr.Tables, cs: seq<Tree>)
    requires |cs| < 9
    ensures LongOf(t, cs).None?
  {
  }

  lemma BlockActs(t: Lalr.Tables, tree: Tree)
    requires tree.Node? && |tree.children| == 4 && tree.children[0].Matched? && tree.children[3].Matched?
    ensures Actions(t, tree) == Actions(t, tree.children[1]) + Actions(t, tree.children[2])
  {
    hide Actions, AllActions, From;
    var cs := tree.children;
    Whole(t, tree);
    Pass(t, cs, 3);
    Last(t, cs, 2);
    Peel(t, cs, 1);
    Pass(t, cs, 0);
  }

  lemma {:induction false} LongActs(t: Lalr.Tables, cs: seq<Tree>)
    requires LongOf(t, cs).Some?
    ensures From(t, cs, 0) == StmtActions(LongOf(t, cs).value)
    decreases cs, 0
  {
    hide Actions, AllActions, From, InitOf, SimpleOf, SimpleActions, StmtOf, BranchesOf, ElseOf, ConditionOf,
      ExprActions, StmtActions, BranchesActions;
    if WhileShape(cs) {
      WhilePieces(t, cs);
      ConditionActs(t, cs[3]);
      StmtActs(t, cs[6]);
      WhileReads(ConditionOf(t, cs[3]).value, StmtOf(t, cs[6]).value);
    } else if DoWhileShape(cs) {
      DoWhilePieces(t, cs);
      StmtActs(t, cs[3]);
      ConditionActs(t, cs[7]);
      DoWhileReads(StmtOf(t, cs[3]).value, ConditionOf(t, cs[7]).value);
    } else if ForShape(cs) {
      ForPieces(t, cs);
      InitActs(t, cs[2]);
      ConditionActs(t, cs[5]);
      SimpleActs(t, cs[7]);
      StmtActs(t, cs[11]);
      ForReads(InitOf(cs[2]).value, ConditionOf(t, cs[5]).value, SimpleOf(cs[7]).value, StmtOf(t, cs[11]).value);
    } else {
      IfPieces(t, cs);
      ConditionActs(t, cs[3]);
      StmtActs(t, cs[6]);
      NeedsElse(t, cs[8], ElseOf(t, cs[9]));
      ElseActs(t, cs[9]);
      BranchesActs(t, cs[8], ElseOf(t, cs[9]).value);
      Assoc3(Actions(t, cs[8]), Actions(t, cs[9]), [Generate(EndOfIf)]);
      IfReads(ConditionOf(t, cs[3]).value, StmtOf(t, cs[6]).value, BranchesOf(t, cs[8], ElseOf(t, cs[9])).value);
    }
  }

  lemma NeedsElse(t: Lalr.Tables, tree: Tree, last: Option<Stmt>)
    requires BranchesOf(t, tree, last).Some?
    ensures last.Some?
  {
  }

  lemma WhileReads(c: Expr, b: Stmt)
    ensures [Generate(StartOfWhile)] + (ExprActions(c) + ([Generate(StartOfWhileCommands)] + (StmtActions(b)
            + [Generate(EndOfWhile)]))) == StmtActions(While(c, b))
  {
    Assoc5([Generate(StartOfWhile)], ExprActions(c), [Generate(StartOfWhileCommands)], StmtActions(b),
      [Generate(EndOfWhile)]);
  }

  lemma DoWhileReads(b: Stmt, c: Expr)
    ensures [Generate(StartOfDoWhile)] + (StmtActions(b) + (ExprActions(c) + [Generate(EndOfDoWhile)]))
         == StmtActions(DoWhile(b, c))
  {
    Shift([Generate(StartOfDoWhile)], StmtActions(b), ExprActions(c), [Generate(EndOfDoWhile)]);
  }

  lemma ForReads(i: Stmt, c: Expr, step: Simple, b: Stmt)
    ensures StmtActions(i) + ([Generate(StartOfFor)] + (ExprActions(c) + ([Generate(ForIncDec)]
            + (SimpleActions(step) + ([Generate(StartOfForCommands)] + (StmtActions(b) + [Generate(EndOfFor)]))))))
         == StmtActions(Seq(i, For(c, step, b)))
  {
    hide SimpleActions, ExprActions;
    Assoc7([Generate(StartOfFor)], ExprActions(c), [Generate(ForIncDec)], SimpleActions(step),
      [Generate(StartOfForCommands)], StmtActions(b), [Generate(EndOfFor)]);
  }

  lemma IfReads(c: Expr, b: Stmt, rest: Branches)
    ensures [Generate(StartOfIf)] + (ExprActions(c) + ([Generate(Jz)] + (StmtActions(b) + (BranchesActions(rest)
            + [Generate(EndOfIf)])))) == StmtActions(If(c, b, rest))
  {
    hide ExprActions;
    Assoc5([Generate(StartOfIf)], ExprActions(c), [Generate(Jz)], StmtActions(b),
      BranchesActions(rest) + [Generate(EndOfIf)]);
    Assoc3([Generate(StartOfIf)] + ExprActions(c) + [Generate(Jz)] + StmtActions(b), BranchesActions(rest),
      [Generate(EndOfIf)]);
  }

  lemma ElsIfReads(c: Expr, b: Stmt, rest: Branches)
    ensures [Generate(JmpToEndAndJzCompleted)] + (ExprActions(c) + ([Generate(Jz)] + (StmtActions(b)
            + BranchesActions(rest)))) == BranchesActions(ElsIf(c, b, rest))
  {
    hide ExprActions;
    Assoc5([Generate(JmpToEndAndJzCompleted)], ExprActions(c), [Generate(Jz)], StmtActions(b), BranchesActions(rest));
  }

  lemma {:induction false} ElseActs(t: Lalr.Tables, tree: Tree)
    requires ElseOf(t, tree).Some?
    ensures Actions(t, tree) == StmtActions(ElseOf(t, tree).value)
    decreases tree, 1
  {
    hide Actions, AllActions, From, StmtOf;
    var cs := tree.children;
    Whole(t, tree);
    if |cs| == 4 {
      Pass(t, cs, 3);
      Last(t, cs, 2);
      Pass(t, cs, 1);
      Pass(t, cs, 0);
      StmtActs(t, cs[2]);
    }
  }

  lemma {:induction false} BranchesActs(t: Lalr.Tables, tree: Tree, last: Stmt)
    requires BranchesOf(t, tree, Some(last)).Some?
    ensures Actions(t, tree) + StmtActions(last) == BranchesActions(BranchesOf(t, tree, Some(last)).value)
    decreases tree, 1
  {
    hide Actions, AllActions, From, StmtOf, ConditionOf, ExprActions;
    var cs := tree.children;
    Whole(t, tree);
    if |cs| == 2 {
      Pass(t, cs, 1);
      Fires(t, cs, 0);
    } else {
      ElsIfPieces(t, cs);
      ConditionActs(t, cs[3]);
      StmtActs(t, cs[6]);
      BranchesActs(t, cs[8], last);
      ElsIfReads(ConditionOf(t, cs[3]).value, StmtOf(t, cs[6]).value, BranchesOf(t, cs[8], Some(last)).value);
      Append5([Generate(JmpToEndAndJzCompleted)], Actions(t, cs[3]), [Generate(Jz)], Actions(t, cs[6]),
        Actions(t, cs[8]), StmtActions(last));
    }
  }

  lemma Append5<T>(a: seq<T>, b: seq<T>, c: seq<T>, d: seq<T>, e: seq<T>, f: seq<T>)
    ensures a + (b + (c + (d + e))) + f == a + (b + (c + (d + (e + f))))
  {
    Assoc5(a, b, c, d, e);
    Assoc5(a, b, c, d, e + f);
    Assoc3(a + b + c + d, e, f);
  }
}
