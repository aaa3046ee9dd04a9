/**
 The meaning of scripts, given on the source: variables are named, loops are
 loops.  Running out of `clock`, which is spent by loop iterations, stands for
 a script that has not ended yet.
 */
module Semantics {
  import opened Words
  import opened Registers
  import opened Script
  import opened Machine

  datatype State = State(vars: map<Place, u64>, regs: RegFile, out: seq<Event>)

  function ReadPlace(st: State, p: Place): u64 {
    match p
    case Register(r) => ReadRegister(st.regs, r)
    case Variable(_, _) => if p in st.vars then st.vars[p] else 0
  }

  function WritePlace(st: State, p: Place, v: u64): State {
    match p
    case Register(r) => st.(regs := WriteRegister(st.regs, r, v))
    case Variable(_, _) => st.(vars := st.vars[p := v])
  }

  /** The value of an expression; None when it divides by zero. */
  function Eval(e: Expr, st: State): Option<u64> {
    match e
    case Number(n) => Some(n)
    case Read(p) => Some(ReadPlace(st, p))
    case Unary(op, a) =>
      (match Eval(a, st)
       case None => None
       case Some(x) => Some(UnaryValue(op, x)))
    case Binary(op, l, r) =>
      match (Eval(l, st), Eval(r, st))
      case (Some(x), Some(y)) => BinaryValue(op, x, y)
      case _ => None
  }

  function EvalAll(args: seq<Expr>, st: State): Option<seq<u64>> {
    if args == [] then Some([])
    else
      match (Eval(args[0], st), EvalAll(args[1..], st))
      case (Some(v), Some(vs)) => Some([v] + vs)
      case _ => None
  }

  function ExecSimple(a: Simple, st: State): Option<State> {
    match a
    case Assign(p, e) =>
      (match Eval(e, st)
       case None => None
       case Some(v) => Some(WritePlace(st, p, v)))
    case Increment(p) => Some(WritePlace(st, p, (ReadPlace(st, p) + 1) % TWO64))
    case Decrement(p) => Some(WritePlace(st, p, (ReadPlace(st, p) - 1) % TWO64))
  }

  /** How a statement ends; a faulted one has divided by zero in the given state. */
  datatype Outcome =
    | Normal(st: State, clock: nat)
    | Broke(st: State, clock: nat)
    | Continued(st: State, clock: nat)
    | Faulted(st: State)
    | Timeout

  predicate Within(r: Outcome, clock: nat) {
    (r.Normal? || r.Broke? || r.Continued?) ==> r.clock <= clock
  }

  /**
   Runs a statement.  A break ends the innermost loop.  A continue goes on with
   the step of the innermost `for`: it leaves every `while` and `do-while` in between.
   */
  function Exec(s: Stmt, st: State, clock: nat): (r: Outcome)
    ensures Within(r, clock)
    decreases clock, s
  {
    match s
    case Skip => Normal(st, clock)
    case Seq(a, b) =>
      (match Exec(a, st, clock)
       case Normal(st1, k) => Exec(b, st1, k)
       case r => r)
    case Do(a) =>
      (match ExecSimple(a, st)
       case None => Faulted(st)
       case Some(st1) => Normal(st1, clock))
    case If(c, t, r) =>
      (match Eval(c, st)
       case None => Faulted(st)
       case Some(v) => if v != 0 then Exec(t, st, clock) else ExecBranches(r, st, clock))
    case While(c, b) =>
      if clock == 0 then Timeout
      else
        (match Eval(c, st)
         case None => Faulted(st)
         case Some(v) =>
           if v == 0 then Normal(st, clock - 1)
           else
             match Exec(b, st, clock - 1)
             case Normal(st1, k) => Exec(s, st1, k)
             case Broke(st1, k) => Normal(st1, k)
             case r => r)
    case DoWhile(b, c) =>
      (match Exec(b, st, clock)
       case Normal(st1, k) =>
         (match Eval(c, st1)
          case None => Faulted(st1)
          case Some(v) =>
            if v == 0 then Normal(st1, k)
            else if k == 0 then Timeout
            else Exec(s, st1, k - 1))
       case Broke(st1, k) => Normal(st1, k)
       case r => r)
    case For(c, step, b) =>
      if clock == 0 then Timeout
      else
        (match Eval(c, st)
         case None => Faulted(st)
         case Some(v) =>
           if v == 0 then Normal(st, clock - 1)
           else
             var r := Exec(b, st, clock - 1);
             match r
             case Broke(st1, k) => Normal(st1, k)
             case Faulted(_) => r
             case Timeout => r
             case _ =>
               match ExecSimple(step, r.st)
               case None => Faulted(r.st)
               case Some(st2) => Exec(s, st2, r.clock))
    case Break => Broke(st, clock)
    case Continue => Continued(st, clock)
    case Call(r, e) =>
      (match Eval(e, st)
       case None => Faulted(st)
       case Some(v) => Normal(st.(out := st.out + [Reported(r, v)]), clock))
    case Printf(f, args) =>
      match EvalAll(args, st)
      case None => Faulted(st)
      case Some(vs) => Normal(st.(out := st.out + [Printed(f, vs)]), clock)
  }

  function ExecBranches(r: Branches, st: State, clock: nat): (o: Outcome)
    ensures Within(o, clock)
    decreases clock, r
  {
    match r
    case ElsIf(c, b, rest) =>
      (match Eval(c, st)
       case None => Faulted(st)
       case Some(v) => if v != 0 then Exec(b, st, clock) else ExecBranches(rest, st, clock))
    case Else(b) => Exec(b, st, clock)
  }

  // ---------------------------------------------------------------- one unfolding each

  lemma ExecSeq(a: Stmt, b: Stmt, st: State, clock: nat)
    ensures Exec(Seq(a, b), st, clock) ==
            var r := Exec(a, st, clock);
            if r.Normal? then Exec(b, r.st, r.clock) else r
  {
    hide Eval, EvalAll, ExecSimple, ExecBranches;
  }

  lemma ExecIf(c: Expr, t: Stmt, r: Branches, st: State, clock: nat)
    ensures Exec(If(c, t, r), st, clock) ==
            match Eval(c, st)
            case None => Faulted(st)
            case Some(v) => if v != 0 then Exec(t, st, clock) else ExecBranches(r, st, clock)
  {
    hide Eval, EvalAll, ExecSimple, ExecBranches;
  }

  lemma ExecElsIf(c: Expr, b: Stmt, rest: Branches, st: State, clock: nat)
    ensures ExecBranches(ElsIf(c, b, rest), st, clock) ==
            match Eval(c, st)
            case None => Faulted(st)
            case Some(v) => if v != 0 then Exec(b, st, clock) else ExecBranches(rest, st, clock)
  {
    hide Eval, EvalAll, ExecSimple, Exec;
  }

  lemma ExecElse(b: Stmt, st: State, clock: nat)
    ensures ExecBranches(Else(b), st, clock) == Exec(b, st, clock)
  {
    hide Eval, Exec;
  }

  lemma ExecWhile(c: Expr, b: Stmt, st: State, clock: nat)
    requires clock > 0
    ensures Exec(While(c, b), st, clock) ==
            match Eval(c, st)
            case None => Faulted(st)
            case Some(v) =>
              if v == 0 then Normal(st, clock - 1)
              else
                var r := Exec(b, st, clock - 1);
                if r.Normal? then Exec(While(c, b), r.st, r.clock)
                else if r.Broke? then Normal(r.st, r.clock)
                else r
  {
    hide Eval, EvalAll, ExecSimple, ExecBranches;
  }

  lemma ExecDoWhile(b: Stmt, c: Expr, st: State, clock: nat)
    ensures Exec(DoWhile(b, c), st, clock) ==
            var r := Exec(b, st, clock);
            if r.Normal? then
              (match Eval(c, r.st)
               case None => Faulted(r.st)
               case Some(v) =>
                 if v == 0 then r
                 else if r.clock == 0 then Timeout
                 else Exec(DoWhile(b, c), r.st, r.clock - 1))
            else if r.Broke? then Normal(r.st, r.clock)
            else r
  {
    hide Eval, EvalAll, ExecSimple, ExecBranches;
  }

  lemma ExecFor(c: Expr, step: Simple, b: Stmt, st: State, clock: nat)
    requires clock > 0
    ensures Exec(For(c, step, b), st, clock) ==
            match Eval(c, st)
            case None => Faulted(st)
            case Some(v) =>
              if v == 0 then Normal(st, clock - 1)
              else
                var r := Exec(b, st, clock - 1);
                if r.Broke? then Normal(r.st, r.clock)
                else if r.Faulted? || r.Timeout? then r
                else
                  match ExecSimple(step, r.st)
                  case None => Faulted(r.st)
                  case Some(st2) => Exec(For(c, step, b), st2, r.clock)
  {
    hide Eval, EvalAll, ExecSimple, ExecBranches;
  }

  /** Without clock, a loop whose condition comes first has not started. */
  lemma ExecNoClock(s: Stmt, st: State)
    requires s.While? || s.For?
    ensures Exec(s, st, 0) == Timeout
  {
    hide Eval, EvalAll, ExecSimple, ExecBranches;
  }
}
