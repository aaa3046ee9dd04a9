/**
 From the tokens of a text to its effects: what the shipped parsers accept is a
 script, and it is that script that was compiled.
 */
module ShippedScript {
  import opened Words
  import opened Script
  import opened Codegen
  import opened Machine
  import opened Semantics
  import opened Preservation
  import opened Correctness
  import opened Ll
  import opened Reading
  import opened ShippedGrammar
  import opened ShippedRows
  import opened ShippedTidy
  import Lalr
  import Parsing
  import ShippedTables

  /** The tokens of a text without pseudo-registers, as both drivers see them. */
  ghost predicate Lexed(g: Grammar, input: seq<Lexeme>) {
    && Scanned(g, input)
    && (forall w :: w in input ==> Typed(w)) && Parsing.OperandWords(g.inner, InnerWords(input))
  }

  /** The generator after the statement driver has run on a text. */
  function Parsed(g: Grammar, input: seq<Lexeme>, tm: seq<bool>, ids: seq<string>, n: nat, rounds: nat): Gen {
    Drive(g, Begin(g, input, Start(tm, ids)), n, rounds).gen
  }

  /** The shipped parsers accept the text. */
  ghost predicate Accepts(g: Grammar, input: seq<Lexeme>, tm: seq<bool>, ids: seq<string>, n: nat, rounds: nat) {
    && g == Statements(g.same, g.extent) && Lexed(g, input)
    && Drive(g, Begin(g, input, Start(tm, ids)), n, rounds).outcome.Accepted?
  }

  /**
   What the shipped parsers accept is a script, and they have compiled that script:
   the accepted tokens are the yield of a derivation tree, the tree reads as a
   statement, and the generator has ended as that statement's compilation does.
   */
  lemma AcceptedIsScript(g: Grammar, input: seq<Lexeme>, tm: seq<bool>, ids: seq<string>, n: nat, rounds: nat)
    returns (tree: Tree)
    requires Accepts(g, input, tm, ids, n, rounds)
    ensures Grows(g, Phrase(N_S), tree) && Yield(tree) == input
    ensures Parsed(g, input, tm, ids, n, rounds).status.Ok?
    ensures StmtOf(g.inner, tree).Some?
    ensures Parsed(g, input, tm, ids, n, rounds) == Compile(StmtOf(g.inner, tree).value, tm, ids)
  {
    hide ShippedTables.Shipped, ShippedTables.Notes, Lalr.Coherent, Coherent, Drive, Run, Grows, Yield, Actions, StmtOf,
      StmtActions, Tidy, NoBareStep, Scanned, Parsing.OperandWords, Typed, TableEntry, LhsOf, RhsOf, SpoiledAt;
    ShippedTables.ShippedCoherent();
    StatementsCoherent(g.same, g.extent);
    tree := DriverSound(g, ShippedTables.Notes(), input, Start(tm, ids), n, rounds);
    if i: nat :| i < |Actions(g.inner, tree)| && SpoiledAt(Actions(g.inner, tree), i) {
      SpoiledStops(Start(tm, ids), Actions(g.inner, tree), i);
    }
    UnspoiledHasNoBareStep(g, N_S, tree, input);
    UnspoiledIsTidy(g, N_S, tree, input);
    ReadsSequence(g, tree);
    StmtActs(g.inner, tree);
  }

  /**
   A text means what its script means: when the machine halts on the code of an
   accepted text, variables, registers and output are those of the script that the
   text's derivation tree reads as, and it halts with an error exactly when that
   script divides by zero.
   */
  lemma AcceptedMeansScript(g: Grammar, input: seq<Lexeme>, tm: seq<bool>, ids: seq<string>, n: nat, rounds: nat,
      st: State, vm: Vm, steps: nat) returns (tree: Tree)
    requires Accepts(g, input, tm, ids, n, rounds) && |tm| == MAX_TEMP_COUNT
    requires vm.idx == 0 && vm.fault == NoFault && Agree(st, vm, Parsed(g, input, tm, ids, n, rounds).ids)
    requires |Parsed(g, input, tm, ids, n, rounds).code| < CODE_LIMIT
    requires var code := Parsed(g, input, tm, ids, n, rounds).code; Halted(code, RunFor(code, vm, steps))
    ensures Grows(g, Phrase(N_S), tree) && Yield(tree) == input
    ensures StmtOf(g.inner, tree).Some?
    ensures
      var end := Parsed(g, input, tm, ids, n, rounds);
      EndedAs(end.code, RunFor(end.code, vm, steps), Exec(StmtOf(g.inner, tree).value, st, steps + 1), end.ids)
  {
    hide Accepts, Parsed, Grows, Yield, StmtOf, Agree, RunFor, Exec, EndedAs, Compile;
    tree := AcceptedIsScript(g, input, tm, ids, n, rounds);
    MachineMeansScript(StmtOf(g.inner, tree).value, tm, ids, st, vm, steps);
  }
}
