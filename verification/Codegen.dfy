/**
 The one-pass code generator: what each semantic rule does to the operand
 stack, the code cells, the map of temporaries and the identifier table.
 */
module Codegen {
  import opened Words
  import opened Registers
  import opened Script

  const MAX_TEMP_COUNT: nat := 128

  datatype Opcode =
    | UnaryCode(uop: UnaryOp)
    | BinaryCode(bop: BinaryOp)
    | MovCode | IncCode | DecCode
    | JzCode | JnzCode | JmpCode
    | ReportCode(report: Report)
    | PrintfCode

  /** A cell of the code buffer.  A string fills one TextCell and as many TextRest as it needs. */
  datatype Cell =
    | OpCell(op: Opcode)
    | NumberCell(value: nat)
    | GlobalCell(index: nat)
    | LocalCell(index: nat)
    | RegisterCell(reg: GuestReg)
    | TempCell(index: nat)
    | CountCell(count: nat)
    | TextCell(text: string)
    | TextRest
    | InvalidCell

  datatype Marker = IfMark | WhileMark | DoWhileMark | ForMark | IncDecMark | VargMark

  /**
   An entry of the operand stack.  Saved code addresses are number tokens, as
   they are decimal tokens in the source.  A variable is resolved when its name
   was in the identifier table at the time it was scanned.
   */
  datatype Token =
    | NumberTok(value: nat)
    | PlaceTok(place: Place, resolved: bool)
    | TempTok(id: nat)
    | StringTok(text: string)
    | Mark(marker: Marker)

  datatype ErrorType = Syntax | UnresolvedVariable | TempListFull

  /**
   Undefined: the source would pop an empty stack, take a token that is no
   address for one, or write outside the code buffer.
   */
  datatype Status = Ok | Failed(error: ErrorType) | Undefined

  datatype Gen = Gen(stack: seq<Token>, code: seq<Cell>, temps: seq<bool>, ids: seq<string>, status: Status)

  // ---------------------------------------------------------------- identifiers

  /** The position of the first occurrence of `name`, or |ids| when there is none. */
  function IndexOf(ids: seq<string>, name: string): (i: nat)
    ensures i <= |ids|
    ensures name in ids <==> i < |ids|
    ensures i < |ids| ==> ids[i] == name
  {
    if ids == [] then 0
    else if ids[0] == name then 0
    else 1 + IndexOf(ids[1..], name)
  }

  predicate Known(p: Place, ids: seq<string>) {
    p.Register? || p.name in ids
  }

  /** The identifier table after an assignment to `p`. */
  function Define(p: Place, ids: seq<string>): (r: seq<string>)
    ensures ids <= r && Known(p, r)
  {
    if Known(p, ids) then ids else ids + [p.name]
  }

  // ---------------------------------------------------------------- temporaries

  /** The first free slot, or |temps| when all are taken. */
  function FirstFree(temps: seq<bool>): (i: nat)
    ensures i <= |temps|
    ensures i < |temps| ==> !temps[i]
    ensures forall j :: 0 <= j < i ==> temps[j]
  {
    if temps == [] then 0
    else if !temps[0] then 0
    else 1 + FirstFree(temps[1..])
  }

  function Take(temps: seq<bool>, id: nat): (r: seq<bool>)
    ensures |r| == |temps|
  {
    if id < |temps| then temps[id := true] else temps
  }

  /** Frees the slot of a temporary; other tokens own no slot. */
  function Release(temps: seq<bool>, t: Token): (r: seq<bool>)
    ensures |r| == |temps|
  {
    if t.TempTok? && t.id < |temps| then temps[t.id := false] else temps
  }

  // ---------------------------------------------------------------- tokens and cells

  predicate Operand(t: Token) {
    t.NumberTok? || t.PlaceTok? || t.TempTok?
  }

  predicate Resolved(t: Token) {
    t.PlaceTok? ==> t.resolved
  }

  function PlaceCell(p: Place, ids: seq<string>): Cell {
    match p
    case Variable(Global, name) => GlobalCell(IndexOf(ids, name))
    case Variable(Local, name) => LocalCell(IndexOf(ids, name))
    case Register(r) => RegisterCell(r)
  }

  function Symbol(t: Token, ids: seq<string>): Cell {
    match t
    case NumberTok(n) => NumberCell(n)
    case PlaceTok(p, true) => PlaceCell(p, ids)
    case TempTok(id) => TempCell(id)
    case _ => InvalidCell
  }

  /** The number of cells a string occupies: 8 bytes of tag, the text, its terminator, in 16-byte cells. */
  function TextSize(s: string): (n: nat)
    ensures n >= 1
  {
    (8 + |s|) / 16 + 1
  }

  function TextCells(s: string): (c: seq<Cell>)
    ensures |c| == TextSize(s)
  {
    [TextCell(s)] + seq(TextSize(s) - 1, _ => TextRest)
  }

  // ---------------------------------------------------------------- stack helpers

  predicate LoopMark(t: Token) {
    t.Mark? && (t.marker.WhileMark? || t.marker.DoWhileMark? || t.marker.ForMark?)
  }

  function Top(stack: seq<Token>): Token
    requires stack != []
  {
    stack[|stack| - 1]
  }

  function Below(stack: seq<Token>): seq<Token>
    requires stack != []
  {
    stack[..|stack| - 1]
  }

  predicate HasLoop(stack: seq<Token>) {
    stack != [] && (LoopMark(Top(stack)) || HasLoop(Below(stack)))
  }

  /** Puts `extra` just above the innermost loop marker. */
  function Insert(stack: seq<Token>, extra: seq<Token>): seq<Token> {
    if stack == [] then []
    else if LoopMark(Top(stack)) then stack + extra
    else Insert(Below(stack), extra) + [Top(stack)]
  }

  predicate HasFor(stack: seq<Token>) {
    stack != [] && (Top(stack) == Mark(IncDecMark) || HasFor(Below(stack)))
  }

  /** The tokens above the innermost @INC_DEC marker. */
  function AboveIncDec(stack: seq<Token>): (r: seq<Token>)
    ensures |r| <= |stack|
    ensures HasFor(stack) ==> |r| < |stack|
  {
    if stack == [] || Top(stack) == Mark(IncDecMark) then []
    else AboveIncDec(Below(stack)) + [Top(stack)]
  }

  predicate Patchable(code: seq<Cell>, at: int) {
    0 <= at < |code| && code[at].NumberCell?
  }

  /** Overwrites the jump operand at `at`. */
  function Patch(code: seq<Cell>, at: int, target: nat): (r: seq<Cell>)
    requires Patchable(code, at)
    ensures |r| == |code|
  {
    code[at := NumberCell(target)]
  }

  datatype Popped = Stuck | Popped(stack: seq<Token>, code: seq<Cell>)

  /** Pops addresses down to `mark`, pointing the jump operand `offset` cells after each at `target`. */
  function PatchDown(stack: seq<Token>, code: seq<Cell>, mark: Marker, offset: nat, target: nat): Popped {
    if stack == [] then Stuck
    else if Top(stack) == Mark(mark) then Popped(Below(stack), code)
    else if Top(stack).NumberTok? && Patchable(code, Top(stack).value + offset) then
      PatchDown(Below(stack), Patch(code, Top(stack).value + offset, target), mark, offset, target)
    else Stuck
  }

  // ---------------------------------------------------------------- the rules

  function Fail(g: Gen, e: ErrorType): Gen {
    g.(status := Failed(e))
  }

  function Crash(g: Gen): Gen {
    g.(status := Undefined)
  }

  /** @MOV: the value is on top, the place below it; an unresolved variable gets the next identifier. */
  function GenMov(g: Gen): Gen {
    if |g.stack| < 2 || !Operand(Top(g.stack)) || !Operand(Top(Below(g.stack))) then Crash(g)
    else
      var src, dst := Top(g.stack), Top(Below(g.stack));
      var isNew := dst.PlaceTok? && !dst.resolved && dst.place.Variable?;
      var ids := if isNew then g.ids + [dst.place.name] else g.ids;
      var target :=
        if !isNew then Symbol(dst, g.ids)
        else if dst.place.kind == Global then GlobalCell(|g.ids|) else LocalCell(|g.ids|);
      if !Resolved(src) || target == InvalidCell then Fail(g.(ids := ids), UnresolvedVariable)
      else
        g.(stack := Below(Below(g.stack)),
           code := g.code + [OpCell(MovCode), Symbol(src, g.ids), target],
           temps := Release(Release(g.temps, src), dst),
           ids := ids)
  }

  /** @INC and @DEC. */
  function GenOneOperand(g: Gen, op: Opcode): Gen {
    if g.stack == [] || !Operand(Top(g.stack)) then Crash(g)
    else if !Resolved(Top(g.stack)) then Fail(g, UnresolvedVariable)
    else
      g.(stack := Below(g.stack),
         code := g.code + [OpCell(op), Symbol(Top(g.stack), g.ids)],
         temps := Release(g.temps, Top(g.stack)))
  }

  /** The print-like calls: the operand is popped but its temporary is not freed. */
  function GenReport(g: Gen, r: Report): Gen {
    if g.stack == [] || !Operand(Top(g.stack)) then Crash(g)
    else if !Resolved(Top(g.stack)) then Fail(g, UnresolvedVariable)
    else
      g.(stack := Below(g.stack),
         code := g.code + [OpCell(ReportCode(r)), Symbol(Top(g.stack), g.ids)])
  }

  /** A unary operator: the destination is taken before the operand is freed. */
  function GenUnary(g: Gen, op: UnaryOp): Gen {
    if g.stack == [] || !Operand(Top(g.stack)) then Crash(g)
    else
      var a := Top(g.stack);
      var d := FirstFree(g.temps);
      if d == |g.temps| then Fail(g, TempListFull)
      else if !Resolved(a) then Fail(g, UnresolvedVariable)
      else
        g.(stack := Below(g.stack) + [TempTok(d)],
           code := g.code + [OpCell(UnaryCode(op)), Symbol(a, g.ids), TempCell(d)],
           temps := Release(Take(g.temps, d), a))
  }

  /** A binary operator: the right operand is on top and is emitted first. */
  function GenBinary(g: Gen, op: BinaryOp): Gen {
    if |g.stack| < 2 || !Operand(Top(g.stack)) || !Operand(Top(Below(g.stack))) then Crash(g)
    else
      var a, b := Top(g.stack), Top(Below(g.stack));
      var d := FirstFree(g.temps);
      if d == |g.temps| then Fail(g, TempListFull)
      else if !Resolved(a) || !Resolved(b) then Fail(g, UnresolvedVariable)
      else
        g.(stack := Below(Below(g.stack)) + [TempTok(d)],
           code := g.code + [OpCell(BinaryCode(op)), Symbol(a, g.ids), Symbol(b, g.ids), TempCell(d)],
           temps := Release(Release(Take(g.temps, d), a), b))
  }

  /** The conversion specifications `printf` recognises at the start of `s`. */
  predicate SpecifierAt(s: string) {
    |s| >= 2 && s[0] == '%' &&
    (s[1] in "diuoxcps" ||
     (|s| >= 3 && (s[..3] in {"%ws", "%ls"} || (s[1] in "lh" && s[2] in "diuox"))) ||
     (|s| >= 4 && s[1] == 'l' && s[2] == 'l' && s[3] in "diuox"))
  }

  function Specifiers(s: string): nat {
    if s == [] then 0 else (if SpecifierAt(s) then 1 else 0) + Specifiers(s[1..])
  }

  function SymbolsOf(ts: seq<Token>, ids: seq<string>): (r: seq<Cell>)
    ensures |r| == |ts|
  {
    if ts == [] then [] else [Symbol(ts[0], ids)] + SymbolsOf(ts[1..], ids)
  }

  function ReleaseAll(temps: seq<bool>, ts: seq<Token>): (r: seq<bool>)
    ensures |r| == |temps|
    decreases |ts|
  {
    if ts == [] then temps else ReleaseAll(Release(temps, Top(ts)), Below(ts))
  }

  predicate HasVarg(stack: seq<Token>) {
    stack != [] && (Top(stack) == Mark(VargMark) || HasVarg(Below(stack)))
  }

  function AboveVarg(stack: seq<Token>): (r: seq<Token>)
    ensures |r| <= |stack|
    ensures HasVarg(stack) ==> |r| < |stack|
  {
    if stack == [] || Top(stack) == Mark(VargMark) then []
    else AboveVarg(Below(stack)) + [Top(stack)]
  }

  /** @PRINTF: the arguments above @VARGSTART are emitted in source order after the format. */
  function GenPrintf(g: Gen): Gen {
    var args := AboveVarg(g.stack);
    var n := |g.stack| - |args|;
    if !HasVarg(g.stack) || n < 2 || !g.stack[n - 2].StringTok? || !(forall t :: t in args ==> Operand(t)) then Crash(g)
    else if !(forall t :: t in args ==> Resolved(t)) then Fail(g, UnresolvedVariable)
    else if Specifiers(g.stack[n - 2].text) != |args| then Fail(g, Syntax)
    else
      g.(stack := g.stack[..n - 2],
         code := g.code + [OpCell(PrintfCode)] + TextCells(g.stack[n - 2].text) + [CountCell(|args|)]
                 + SymbolsOf(args, g.ids),
         temps := ReleaseAll(g.temps, args))
  }

  /** @JZ: a conditional jump with an open target; the address after it is saved. */
  function GenJz(g: Gen): Gen {
    if g.stack == [] || !Operand(Top(g.stack)) then Crash(g)
    else if !Resolved(Top(g.stack)) then Fail(g, UnresolvedVariable)
    else
      g.(stack := Below(g.stack) + [NumberTok(|g.code| + 3)],
         code := g.code + [OpCell(JzCode), NumberCell(PLACEHOLDER), Symbol(Top(g.stack), g.ids)],
         temps := Release(g.temps, Top(g.stack)))
  }

  /** Closes the pending @JZ just past a new open jump to the end of the `if`. */
  function GenJmpToEnd(g: Gen): Gen {
    if g.stack == [] || !Top(g.stack).NumberTok? || !Patchable(g.code, Top(g.stack).value - 2) then Crash(g)
    else
      g.(stack := Below(g.stack) + [NumberTok(|g.code|)],
         code := Patch(g.code, Top(g.stack).value - 2, |g.code| + 2)
                 + [OpCell(JmpCode), NumberCell(PLACEHOLDER)])
  }

  function GenEndOfIf(g: Gen): Gen {
    match PatchDown(g.stack, g.code, IfMark, 1, |g.code|)
    case Stuck => Crash(g)
    case Popped(stack, code) => g.(stack := stack, code := code)
  }

  function GenStartOfLoop(g: Gen, m: Marker): Gen {
    g.(stack := g.stack + [Mark(m), NumberTok(|g.code|)])
  }

  function GenStartOfWhileCommands(g: Gen): Gen {
    if |g.stack| < 2 || !Operand(Top(g.stack)) then Crash(g)
    else if !Resolved(Top(g.stack)) then Fail(g, UnresolvedVariable)
    else
      g.(stack := Below(Below(g.stack)) + [NumberTok(|g.code| + 1), Top(Below(g.stack))],
         code := g.code + [OpCell(JzCode), NumberCell(PLACEHOLDER), Symbol(Top(g.stack), g.ids)],
         temps := Release(g.temps, Top(g.stack)))
  }

  function GenEndOfWhile(g: Gen): Gen {
    if g.stack == [] || !Top(g.stack).NumberTok? then Crash(g)
    else
      var code := g.code + [OpCell(JmpCode), NumberCell(Top(g.stack).value)];
      match PatchDown(Below(g.stack), code, WhileMark, 0, |code|)
      case Stuck => Crash(g)
      case Popped(stack, code) => g.(stack := stack, code := code)
  }

  function GenEndOfDoWhile(g: Gen): Gen {
    if |g.stack| < 2 || !Operand(Top(g.stack)) || !Top(Below(g.stack)).NumberTok? then Crash(g)
    else if !Resolved(Top(g.stack)) then Fail(g, UnresolvedVariable)
    else
      var code := g.code + [OpCell(JnzCode), NumberCell(Top(Below(g.stack)).value), Symbol(Top(g.stack), g.ids)];
      match PatchDown(Below(Below(g.stack)), code, DoWhileMark, 0, |code|)
      case Stuck => Crash(g)
      case Popped(stack, code) => g.(stack := stack, code := code, temps := Release(g.temps, Top(g.stack)))
  }

  /** @FOR_INC_DEC: jump out when the condition is zero, else over the step code; the temporary is not freed. */
  function GenForIncDec(g: Gen): Gen {
    if |g.stack| < 2 || !Operand(Top(g.stack)) then Crash(g)
    else if !Resolved(Top(g.stack)) then Fail(g, UnresolvedVariable)
    else
      g.(stack := Below(Below(g.stack)) + [NumberTok(|g.code| + 5), Top(Below(g.stack))],
         code := g.code + [OpCell(JzCode), NumberCell(PLACEHOLDER), Symbol(Top(g.stack), g.ids),
                           OpCell(JmpCode), NumberCell(PLACEHOLDER)])
  }

  function GenStartOfForCommands(g: Gen): Gen {
    if |g.stack| < 2 || !Top(g.stack).NumberTok? || !Top(Below(g.stack)).NumberTok? then Crash(g)
    else
      var code := g.code + [OpCell(JmpCode), NumberCell(Top(g.stack).value)];
      var step := Top(Below(g.stack)).value;
      if step < 4 || !Patchable(code, step - 1) then Crash(g)
      else
        g.(stack := Below(Below(g.stack)) + [NumberTok(step - 4), Mark(IncDecMark), NumberTok(step)],
           code := Patch(code, step - 1, |code|))
  }

  function GenEndOfFor(g: Gen): Gen {
    if |g.stack| < 2 || !Top(g.stack).NumberTok? then Crash(g)
    else
      var code := g.code + [OpCell(JmpCode), NumberCell(Top(g.stack).value)];
      match PatchDown(Below(Below(g.stack)), code, ForMark, 0, |code|)
      case Stuck => Crash(g)
      case Popped(stack, code) => g.(stack := stack, code := code)
  }

  /** @BREAK: an open jump whose operand address is saved just above the innermost loop marker. */
  function GenBreak(g: Gen): Gen {
    if g.stack == [] || LoopMark(Top(g.stack)) then Crash(g)
    else if !HasLoop(g.stack) then Fail(g, Syntax)
    else
      g.(stack := Insert(g.stack, [NumberTok(|g.code| + 1)]),
         code := g.code + [OpCell(JmpCode), NumberCell(PLACEHOLDER)])
  }

  /**
   @CONTINUE: a jump to the step code of the innermost `for`.  The popped tokens
   are pushed back by a loop that runs at least once: when only the saved address
   was popped, that address is pushed a second time.
   */
  function GenContinue(g: Gen): Gen {
    var above := AboveIncDec(g.stack);
    if g.stack == [] then Crash(g)
    else if !HasFor(g.stack) then Fail(g, Syntax)
    else if above == [] || !above[0].NumberTok? then Crash(g)
    else
      g.(stack := if |above| == 1 then g.stack + above else g.stack,
         code := g.code + [OpCell(JmpCode), NumberCell(above[0].value)])
  }

  function Fire(g: Gen, rule: Rule): Gen {
    match rule
    case Mov => GenMov(g)
    case Inc => GenOneOperand(g, IncCode)
    case Dec => GenOneOperand(g, DecCode)
    case UnaryRule(op) => GenUnary(g, op)
    case BinaryRule(op) => GenBinary(g, op)
    case ReportRule(r) => GenReport(g, r)
    case VargStart => g.(stack := g.stack + [Mark(VargMark)])
    case PrintfRule => GenPrintf(g)
    case StartOfIf => g.(stack := g.stack + [Mark(IfMark)])
    case Jz => GenJz(g)
    case JmpToEndAndJzCompleted => GenJmpToEnd(g)
    case EndOfIf => GenEndOfIf(g)
    case StartOfWhile => GenStartOfLoop(g, WhileMark)
    case StartOfWhileCommands => GenStartOfWhileCommands(g)
    case EndOfWhile => GenEndOfWhile(g)
    case StartOfDoWhile => GenStartOfLoop(g, DoWhileMark)
    case EndOfDoWhile => GenEndOfDoWhile(g)
    case StartOfFor => GenStartOfLoop(g, ForMark)
    case ForIncDec => GenForIncDec(g)
    case StartOfForCommands => GenStartOfForCommands(g)
    case EndOfFor => GenEndOfFor(g)
    case BreakRule => GenBreak(g)
    case ContinueRule => GenContinue(g)
    case ForeignRule => Crash(g)
  }

  function Step(g: Gen, a: Action): Gen {
    match a
    case PushNumber(n) => g.(stack := g.stack + [NumberTok(n)])
    case PushPlace(p) => g.(stack := g.stack + [PlaceTok(p, Known(p, g.ids))])
    case PushString(s) => g.(stack := g.stack + [StringTok(s)])
    case Generate(rule) => Fire(g, rule)
  }

  /** Runs the actions in order, stopping at the first failure. */
  function Run(g: Gen, acts: seq<Action>): Gen
    decreases |acts|
  {
    if acts == [] || !g.status.Ok? then g else Run(Step(g, acts[0]), acts[1..])
  }

  lemma {:induction false} RunAppend(g: Gen, a: seq<Action>, b: seq<Action>)
    ensures Run(g, a + b) == Run(Run(g, a), b)
    decreases |a|
  {
    if a == [] {
      assert a + b == b;
    } else if g.status.Ok? {
      assert (a + b)[0] == a[0] && (a + b)[1..] == a[1..] + b;
      RunAppend(Step(g, a[0]), a[1..], b);
    }
  }

  lemma RunOne(g: Gen, a: Action)
    ensures Run(g, [a]) == if g.status.Ok? then Step(g, a) else g
  {
  }

  lemma RunStops(g: Gen, a: seq<Action>)
    requires !g.status.Ok?
    ensures Run(g, a) == g
  {
  }

  /** The compiler's state at the first script of a session. */
  function Start(temps: seq<bool>, ids: seq<string>): Gen {
    Gen([], [], temps, ids, Ok)
  }

  /** What the parser makes of a whole script. */
  function Compile(s: Stmt, temps: seq<bool>, ids: seq<string>): Gen {
    Run(Start(temps, ids), StmtActions(s))
  }
}
