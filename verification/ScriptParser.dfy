/**
 The statement driver in the form of the source: one loop that pops an item,
 with the loop that pushes a row backwards inside it.
 */
module ScriptParser {
  import opened Words
  import opened Script
  import opened Codegen
  import opened Generator
  import opened Ll
  import Lalr
  import Parsing

  lemma {:induction false} DriveMore(g: Grammar, d: Driver, n: nat, rounds: nat)
    ensures
      var m := Drive(g, d, n, rounds);
      Drive(g, d, n + 1, rounds) == if m.outcome.Running? then Advance(g, m, rounds) else m
    decreases n
  {
    hide Advance;
    if n == 0 {
      assert Drive(g, Advance(g, d, rounds), 0, rounds) == Advance(g, d, rounds);
    } else if d.outcome.Running? {
      DriveMore(g, Advance(g, d, rounds), n - 1, rounds);
    }
  }

  lemma {:induction false} DriveStopped(g: Grammar, d: Driver, m: nat, n: nat, rounds: nat)
    requires m <= n && !Drive(g, d, m, rounds).outcome.Running?
    ensures Drive(g, d, n, rounds) == Drive(g, d, m, rounds)
    decreases n
  {
    hide Advance;
    if m < n {
      DriveStopped(g, d, m, n - 1, rounds);
      DriveMore(g, d, n - 1, rounds);
    }
  }

  lemma DriveNothing(g: Grammar, d: Driver, rounds: nat)
    ensures Drive(g, d, 0, rounds) == d
  {
  }

  /** Pushes a row, last item first. */
  method PushRow(stack: seq<Item>, rhs: seq<Item>) returns (stack': seq<Item>)
    ensures stack' == stack + Ll.Reversed(rhs)
  {
    stack' := stack;
    var i := |rhs|;
    while i > 0
      invariant 0 <= i <= |rhs|
      invariant stack' == stack + Ll.Reversed(rhs)[..|rhs| - i]
    {
      i := i - 1;
      stack' := stack' + [rhs[i]];
    }
  }

  /** An inner run that ends undefined would have left its trace. */
  lemma InnerDefined(g: Grammar, notes: seq<Lalr.Note>, d: Driver, closing: nat, rounds: nat, m: nat)
    requires m <= rounds && d.gen.status.Ok? && Condition(g, d, closing, [], rounds).gen.status != Undefined
    requires Lalr.Coherent(g.inner, notes) && Lalr.Scanned(g.inner, InnerWords(Front(g, closing, d.input)))
    ensures Lalr.Drive(g.inner, Lalr.Begin(InnerWords(Front(g, closing, d.input)), d.gen), m).gen.status != Undefined
  {
    hide Lalr.Drive, Lalr.Coherent, Lalr.Scanned, Run, Lalr.Fits;
    var words := InnerWords(Front(g, closing, d.input));
    var _ := Lalr.DriverSound(g.inner, notes, d.gen, words, m);
    if !Lalr.Drive(g.inner, Lalr.Begin(words, d.gen), m).gen.status.Ok? {
      Parsing.DriveStopped(g.inner, Lalr.Begin(words, d.gen), m, rounds);
    }
  }

  /** Hands the boolean expression in front to the other driver and skips the token that closes it. */
  method ReadCondition(g: Grammar, ghost notes: seq<Lalr.Note>, ghost stack: seq<Item>, input: seq<Lexeme>,
      closing: nat, gen: CodeGenerator, rounds: nat) returns (input': seq<Lexeme>, outcome: Progress)
    requires gen.status.Ok? && Lalr.Coherent(g.inner, notes) && Scanned(g, input)
    requires Condition(g, Driver(stack, input, gen.State(), Running), closing, [], rounds).gen.status != Undefined
    modifies gen, gen.temps
    ensures
      var d := Condition(g, Driver(stack, input, old(gen.State()), Running), closing, [], rounds);
      && outcome == d.outcome
      && gen.Follows(d.gen)
      && (outcome.Running? ==> input' == d.input && gen.status.Ok?)
  {
    hide Lalr.Coherent, Lalr.Drive;
    input' := input;
    var front := Front(g, closing, input);
    assert Lalr.Scanned(g.inner, InnerWords(front));
    ghost var d := Driver(stack, input, gen.State(), Running);
    forall m: nat | m <= rounds
      ensures Lalr.Drive(g.inner, Lalr.Begin(InnerWords(front), d.gen), m).gen.status != Undefined
    {
      InnerDefined(g, notes, d, closing, rounds, m);
    }
    var _ := Lalr.DriverSound(g.inner, notes, d.gen, InnerWords(front), rounds);
    var inner := Parsing.ParseExpression(g.inner, notes, InnerWords(front), gen, rounds);
    match inner
    case Accepted =>
      outcome := if gen.status.Ok? then Running else Stopped;
      input' := input[Least(|front| + 1, |input|)..];
    case SyntaxError => outcome := SyntaxError;
    case Stopped => outcome := Stopped;
    case Lost => outcome := Lost;
    case Running => outcome := Unfinished;
  }

  /** Nothing but the new stack depends on what is below. */
  lemma SameCondition(g: Grammar, d: Driver, closing: nat, below: seq<Item>, rounds: nat)
    ensures
      var a, b := Condition(g, d, closing, below, rounds), Condition(g, d, closing, [], rounds);
      && a.outcome == b.outcome && a.gen == b.gen && a.input == b.input
      && (a.outcome.Running? ==> a.stack == below)
  {
    hide Lalr.Drive;
  }

  /** One round of the loop. */
  method Round(g: Grammar, ghost notes: seq<Lalr.Note>, stack: seq<Item>, input: seq<Lexeme>, gen: CodeGenerator,
      rounds: nat) returns (stack': seq<Item>, input': seq<Lexeme>, outcome: Progress)
    requires gen.status.Ok? && Lalr.Coherent(g.inner, notes) && Scanned(g, input)
    requires
      var d := Advance(g, Driver(stack, input, gen.State(), Running), rounds);
      !d.outcome.Lost? && d.gen.status != Undefined
    modifies gen, gen.temps
    ensures
      var d := Advance(g, Driver(stack, input, old(gen.State()), Running), rounds);
      && outcome == d.outcome
      && gen.Follows(d.gen)
      && (outcome.Running? ==> d == Driver(stack', input', gen.State(), Running) && gen.status.Ok?)
      && (outcome.Running? ==> Scanned(g, input'))
  {
    hide Lalr.Coherent, Lalr.Drive, Fire, Step;
    stack', input', outcome := stack, input, Running;
    if stack == [] {
      outcome := if input == [] then Accepted else SyntaxError;
      return;
    }
    var item := stack[|stack| - 1];
    stack' := stack[..|stack| - 1];
    match item
    case Phrase(n) =>
      var kind := if input == [] then g.end else input[0].kind;
      if kind < 0 {
        outcome := SyntaxError;
        return;
      }
      var p := g.table[n][kind];
      if p == INVALID {
        outcome := SyntaxError;
        return;
      }
      stack' := PushRow(stack', g.rows[p].rhs);
    case Boolean(closing) =>
      SameCondition(g, Driver(stack, input, gen.State(), Running), closing, stack', rounds);
      input', outcome := ReadCondition(g, notes, stack, input, closing, gen, rounds);
    case Push(_) =>
      gen.Act(input[0].push.value);
      input' := input[1..];
      if !gen.status.Ok? {
        outcome := Stopped;
      }
    case Act(rule) =>
      gen.CodeGen(rule);
      if !gen.status.Ok? {
        outcome := Stopped;
      }
    case Word(t) =>
      if input == [] || !g.same(t, input[0]) {
        outcome := SyntaxError;
        return;
      }
      input' := input[1..];
  }

  /**
   `ScriptEngineParse`, cut off after `limit` rounds; an error gives all temporaries back.
   */
  method ParseScript(g: Grammar, ghost notes: seq<Lalr.Note>, input: seq<Lexeme>, gen: CodeGenerator, limit: nat,
      rounds: nat) returns (outcome: Progress)
    requires Lalr.Coherent(g.inner, notes) && Scanned(g, input)
    requires forall n: nat :: n <= limit ==>
      var d := Drive(g, Begin(g, input, Start(gen.temps[..], gen.ids)), n, rounds);
      !d.outcome.Lost? && d.gen.status != Undefined
    modifies gen, gen.temps
    ensures
      var d := Drive(g, Begin(g, input, Start(old(gen.temps[..]), old(gen.ids))), limit, rounds);
      && outcome == d.outcome
      && (outcome.Accepted? || outcome.Running? ==> gen.Follows(d.gen))
      && (outcome.SyntaxError? || outcome.Stopped? ==>
            gen.temps[..] == seq(gen.temps.Length, _ => false) && gen.ids == d.gen.ids)
  {
    hide Advance, Drive, Lalr.Coherent, Scanned;
    ghost var d0 := Begin(g, input, Start(gen.temps[..], gen.ids));
    assert forall n: nat :: n <= limit ==>
      !Drive(g, d0, n, rounds).outcome.Lost? && Drive(g, d0, n, rounds).gen.status != Undefined;
    ghost var d := d0;
    gen.stack, gen.code, gen.status := [], [], Ok;
    var stack, rest := [Phrase(g.start)], input;
    outcome := Running;
    var n := 0;
    DriveNothing(g, d0, rounds);
    while n < limit && outcome.Running?
      invariant n <= limit && d == Drive(g, d0, n, rounds) && d.outcome == outcome
      invariant outcome.Running? ==> d == Driver(stack, rest, gen.State(), Running) && gen.status.Ok?
      invariant outcome.Running? ==> Scanned(g, rest)
      invariant gen.Follows(d.gen)
    {
      DriveMore(g, d0, n, rounds);
      stack, rest, outcome := Round(g, notes, stack, rest, gen, rounds);
      d := Advance(g, d, rounds);
      n := n + 1;
    }
    if n < limit {
      DriveStopped(g, d0, n, limit, rounds);
    }
    if outcome.SyntaxError? || outcome.Stopped? {
      gen.CleanTempList();
    }
  }
}
