/**
 The driver with the shipped tables: sound on every input, and what it accepts
 evaluates as the expression its parse tree stands for.
 */
module ShippedParser {
  import opened Words
  import opened Script
  import opened Codegen
  import opened Machine
  import opened Semantics
  import opened Preservation
  import opened Lalr
  import opened Parsing
  import opened ShippedTables

  /** Soundness of the driver with the shipped tables. */
  lemma ShippedDriverSound(g0: Gen, words: seq<Word>, n: nat) returns (tree: Tree)
    requires Scanned(Shipped(), words) && g0.status.Ok?
    ensures
      var d := Drive(Shipped(), Begin(words, g0), n);
      && !d.outcome.Lost?
      && (d.outcome.Stopped? <==> !d.gen.status.Ok?)
      && (d.outcome.Accepted? ==>
            && d.input == []
            && Fits(Shipped(), tree) && Root(Shipped(), tree) == N_S
            && Yield(tree) == words
            && d.gen == Run(g0, Postorder(Shipped(), tree)))
  {
    hide Shipped, Notes, Coherent, Drive, Run, Fits, Scanned;
    ShippedCoherent();
    StartSymbol();
    tree := DriverSound(Shipped(), Notes(), g0, words, n);
  }

  lemma StartSymbol()
    ensures Shipped().start == N_S.id
  {
    hide RuleOf, Past;
  }

  /** The value of text the shipped tables accept. */
  lemma ShippedEvaluates(g0: Gen, words: seq<Word>, n: nat, vm: Vm, st: State) returns (tree: Tree, steps: nat)
    requires Scanned(Shipped(), words) && g0.status.Ok?
    requires Drive(Shipped(), Begin(words, g0), n).outcome.Accepted?
    requires var g := Drive(Shipped(), Begin(words, g0), n).gen; g.stack != [] && Resolved(Top(g.stack))
    requires |g0.temps| == MAX_TEMP_COUNT && vm.idx == |g0.code| && Preservation.Ready(vm, st, g0.ids)
    ensures Fits(Shipped(), tree) && Yield(tree) == words
    ensures PlainTree(Shipped(), tree) ==> ExprOf(Shipped(), tree).Some?
    ensures ExprOf(Shipped(), tree).Some? ==>
            ValueLeft(g0, Drive(Shipped(), Begin(words, g0), n).gen, vm, steps, Eval(ExprOf(Shipped(), tree).value, st))
  {
    hide Shipped, Notes, Coherent, Drive, Run, Fits, Scanned, PlainTree, ExprOf, ValueLeft, Agree, Eval;
    ShippedCoherent();
    tree, steps := AcceptedEvaluates(Shipped(), Notes(), g0, words, n, vm, st);
  }

  function Heads(h: History): nat {
    if h.Start? then 0 else Heads(h.before) + (if h.last.NonTerminal? then 1 else 0)
  }

  lemma {:induction false} HeadsCount(h: History)
    ensures NonTerminals(Spelled(h)) == Heads(h)
  {
    if h.After? {
      HeadsCount(h.before);
      NonTerminalsSnoc(Spelled(h.before), h.last);
    }
  }

  /** Enough unfolding for the rows of the grammar that are no built-ins. */
  lemma HeadsUnfold(h: History)
    requires h.After?
    ensures Heads(h) == Heads(h.before) + (if h.last.NonTerminal? then 1 else 0)
    ensures h.before.Start? ==> Spelled(h) == [h.last]
    ensures h.before.After? ==>
            Heads(h.before) == Heads(h.before.before) + (if h.before.last.NonTerminal? then 1 else 0)
  {
  }

  lemma RowShaped(r: Row)
    requires r.rhs.After?
    requires
      match r.effect
      case PushOperands => r.rhs.before.Start? && r.rhs.last.Terminal?
      case Nothing => Heads(r.rhs) == 1
      case Fires(UnaryRule(_)) => Heads(r.rhs) == 1
      case Fires(BinaryRule(_)) => Heads(r.rhs) == 2
      case _ => false
    ensures Shaped(Production(r.lhs.id, Spelled(r.rhs), r.effect))
  {
    HeadsCount(r.rhs);
    HeadsUnfold(r.rhs);
  }

  /** Every row of the grammar is an expression row, unless it calls a built-in outside the model. */
  lemma RowsAreShaped(p: nat)
    requires p < RULES
    ensures RuleOf(p).effect == Fires(ForeignRule) || Shaped(ProductionOf(p))
  {
    hide Shaped, Spelled;
    var r := RuleOf(p);
    if r.effect != Fires(ForeignRule) {
      HeadsUnfold(r.rhs);
      if r.rhs.before.After? {
        HeadsUnfold(r.rhs.before);
        if r.rhs.before.before.After? {
          HeadsUnfold(r.rhs.before.before);
        }
      }
      RowShaped(r);
    }
  }
}
