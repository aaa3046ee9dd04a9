/**
 The one-pass generator refines the layout: running the semantic rules of a
 script, with all its stack traffic and backpatching, appends exactly the
 directly written code.
 */
module Refinement {
  import opened Words
  import opened Script
  import opened Codegen
  import opened Layout

  // ---------------------------------------------------------------- expressions

  function AfterExpr(g: Gen, e: Expr): Gen {
    g.(stack := g.stack + [ExprToken(e, g.temps, g.ids)],
       code := g.code + ExprCode(e, g.temps, g.ids),
       temps := ExprTemps(e, g.temps))
  }

  /** A destination is a slot that was free before the expression. */
  lemma DestIsFree(e: Expr, tm: seq<bool>)
    requires !Leaf(e) && Dest(e, tm) < |tm|
    ensures !tm[Dest(e, tm)]
  {
  }

  /** Freeing the token of an expression gives back the map there was before it. */
  lemma ReleaseExpr(e: Expr, tm: seq<bool>, ids: seq<string>)
    requires ExprFits(e, tm)
    ensures Release(ExprTemps(e, tm), ExprToken(e, tm, ids)) == tm
  {
    if !Leaf(e) {
      DestIsFree(e, tm);
    }
  }

  /** The destination of a unary operator is held, its operand is given back. */
  lemma ReleaseOperand(a: Expr, tm: seq<bool>, ids: seq<string>, d: nat)
    requires ExprFits(a, tm) && d < |tm| && d == FirstFree(ExprTemps(a, tm))
    ensures Release(Take(ExprTemps(a, tm), d), ExprToken(a, tm, ids)) == Take(tm, d)
  {
    ReleaseExpr(a, tm, ids);
    assert Release(Take(ExprTemps(a, tm), d), ExprToken(a, tm, ids)) == Take(tm, d);
  }

  /** The destination of a binary operator is held, both operands are given back. */
  lemma ReleaseOperands(l: Expr, r: Expr, tm: seq<bool>, ids: seq<string>, d: nat)
    requires ExprFits(l, tm) && ExprFits(r, ExprTemps(l, tm))
    requires d < |tm| && d == FirstFree(ExprTemps(r, ExprTemps(l, tm)))
    ensures
      var tl := ExprTemps(l, tm);
      Release(Release(Take(ExprTemps(r, tl), d), ExprToken(r, tl, ids)), ExprToken(l, tm, ids)) == Take(tm, d)
  {
    var tl := ExprTemps(l, tm);
    ReleaseExpr(l, tm, ids);
    ReleaseExpr(r, tl, ids);
    assert Release(Take(ExprTemps(r, tl), d), ExprToken(r, tl, ids)) == Take(tl, d);
    assert Release(Take(tl, d), ExprToken(l, tm, ids)) == Take(tm, d);
  }

  lemma {:induction false} ExprGenerates(g: Gen, e: Expr)
    requires g.status.Ok?
    ensures ExprOk(e, g.temps, g.ids) || e.Read? ==> Run(g, ExprActions(e)) == AfterExpr(g, e)
    ensures !ExprOk(e, g.temps, g.ids) && !e.Read? ==> Run(g, ExprActions(e)).status.Failed?
    decreases e
  {
    match e
    case Number(n) =>
      RunOne(g, PushNumber(n));
      assert g.code + [] == g.code;
    case Read(p) =>
      RunOne(g, PushPlace(p));
      assert g.code + [] == g.code;
    case Unary(op, a) =>
      UnaryGenerates(g, op, a);
    case Binary(op, l, r) =>
      BinaryGenerates(g, op, l, r);
  }

  /** An operand token is unresolved only when it is an unknown variable. */
  lemma UnresolvedToken(e: Expr, tm: seq<bool>, ids: seq<string>)
    ensures Operand(ExprToken(e, tm, ids))
    ensures !Resolved(ExprToken(e, tm, ids)) <==> e.Read? && !ExprOk(e, tm, ids)
  {
  }

  lemma OkFits(e: Expr, tm: seq<bool>, ids: seq<string>)
    requires ExprOk(e, tm, ids)
    ensures ExprFits(e, tm) && ExprKnown(e, ids)
  {
  }

  /** What a unary rule does when its operand is on the stack. */
  lemma UnaryFires(g: Gen, op: UnaryOp, below: seq<Token>, a: Token)
    requires g.status.Ok? && g.stack == below + [a] && Operand(a)
    ensures
      var d := FirstFree(g.temps);
      var g' := Run(g, [Generate(UnaryRule(op))]);
      if d < |g.temps| && Resolved(a) then
        g' == g.(stack := below + [TempTok(d)],
                 code := g.code + [OpCell(UnaryCode(op)), Symbol(a, g.ids), TempCell(d)],
                 temps := Release(Take(g.temps, d), a))
      else g'.status.Failed?
  {
    RunOne(g, Generate(UnaryRule(op)));
    assert Below(g.stack) == below;
  }

  /** One unfolding of everything the layout says about a unary expression. */
  lemma UnaryUnfolds(op: UnaryOp, a: Expr, tm: seq<bool>, ids: seq<string>)
    ensures
      var e := Unary(op, a);
      var d := FirstFree(ExprTemps(a, tm));
      && ExprActions(e) == ExprActions(a) + [Generate(UnaryRule(op))]
      && (ExprOk(e, tm, ids) <==> ExprOk(a, tm, ids) && d < |tm|)
      && ExprTemps(e, tm) == Take(tm, d)
      && ExprToken(e, tm, ids) == TempTok(d)
      && ExprCode(e, tm, ids) == ExprCode(a, tm, ids) + [OpCell(UnaryCode(op)), ExprSymbol(a, tm, ids), TempCell(d)]
  {
  }

  lemma {:induction false} UnaryGenerates(g: Gen, op: UnaryOp, a: Expr)
    requires g.status.Ok?
    ensures
      var e := Unary(op, a);
      if ExprOk(e, g.temps, g.ids) then Run(g, ExprActions(e)) == AfterExpr(g, e)
      else Run(g, ExprActions(e)).status.Failed?
    decreases Unary(op, a), 0
  {
    hide Run, ExprActions, ExprOk, ExprTemps, ExprToken, ExprCode, Symbol, Take, Release;
    var e := Unary(op, a);
    var g1 := Run(g, ExprActions(a));
    UnaryUnfolds(op, a, g.temps, g.ids);
    RunAppend(g, ExprActions(a), [Generate(UnaryRule(op))]);
    ExprGenerates(g, a);
    if g1.status.Ok? {
      var t := ExprToken(a, g.temps, g.ids);
      UnresolvedToken(a, g.temps, g.ids);
      UnaryFires(g1, op, g.stack, t);
      if ExprOk(e, g.temps, g.ids) {
        OkFits(a, g.temps, g.ids);
        ReleaseOperand(a, g.temps, g.ids, FirstFree(g1.temps));
        assert Run(g, ExprActions(e)).code == AfterExpr(g, e).code;
      }
    } else {
      RunStops(g1, [Generate(UnaryRule(op))]);
    }
  }

  /** What a binary rule does when both operands are on the stack. */
  lemma BinaryFires(g: Gen, op: BinaryOp, below: seq<Token>, a: Token, b: Token)
    requires g.status.Ok? && g.stack == below + [b, a] && Operand(a) && Operand(b)
    ensures
      var d := FirstFree(g.temps);
      var g' := Run(g, [Generate(BinaryRule(op))]);
      if d < |g.temps| && Resolved(a) && Resolved(b) then
        g' == g.(stack := below + [TempTok(d)],
                 code := g.code + [OpCell(BinaryCode(op)), Symbol(a, g.ids), Symbol(b, g.ids), TempCell(d)],
                 temps := Release(Release(Take(g.temps, d), a), b))
      else g'.status.Failed?
  {
    RunOne(g, Generate(BinaryRule(op)));
    assert Below(g.stack) == below + [b];
    assert Below(Below(g.stack)) == below;
  }

  /** One unfolding of everything the layout says about a binary expression. */
  lemma BinaryUnfolds(op: BinaryOp, l: Expr, r: Expr, tm: seq<bool>, ids: seq<string>)
    ensures
      var e, tl := Binary(op, l, r), ExprTemps(l, tm);
      var d := FirstFree(ExprTemps(r, tl));
      && ExprActions(e) == ExprActions(l) + ExprActions(r) + [Generate(BinaryRule(op))]
      && (ExprOk(e, tm, ids) <==> ExprOk(l, tm, ids) && ExprOk(r, tl, ids) && d < |tm|)
      && ExprTemps(e, tm) == Take(tm, d)
      && ExprToken(e, tm, ids) == TempTok(d)
      && ExprCode(e, tm, ids) == ExprCode(l, tm, ids) + ExprCode(r, tl, ids)
           + [OpCell(BinaryCode(op)), ExprSymbol(r, tl, ids), ExprSymbol(l, tm, ids), TempCell(d)]
  {
  }

  lemma {:induction false} BinaryGenerates(g: Gen, op: BinaryOp, l: Expr, r: Expr)
    requires g.status.Ok?
    ensures
      var e := Binary(op, l, r);
      if ExprOk(e, g.temps, g.ids) then Run(g, ExprActions(e)) == AfterExpr(g, e)
      else Run(g, ExprActions(e)).status.Failed?
    decreases Binary(op, l, r), 0
  {
    hide Run, ExprActions, ExprOk, ExprTemps, ExprToken, ExprCode, Symbol, Take, Release;
    var e := Binary(op, l, r);
    var g1 := Run(g, ExprActions(l));
    var g2 := Run(g1, ExprActions(r));
    BinaryUnfolds(op, l, r, g.temps, g.ids);
    RunAppend(g, ExprActions(l) + ExprActions(r), [Generate(BinaryRule(op))]);
    RunAppend(g, ExprActions(l), ExprActions(r));
    ExprGenerates(g, l);
    if g1.status.Ok? {
      ExprGenerates(g1, r);
      if g2.status.Ok? {
        var a, b := ExprToken(r, g1.temps, g.ids), ExprToken(l, g.temps, g.ids);
        UnresolvedToken(l, g.temps, g.ids);
        UnresolvedToken(r, g1.temps, g.ids);
        assert g2.stack == g.stack + [b, a];
        BinaryFires(g2, op, g.stack, a, b);
        if ExprOk(e, g.temps, g.ids) {
          OkFits(l, g.temps, g.ids);
          OkFits(r, g1.temps, g.ids);
          ReleaseOperands(l, r, g.temps, g.ids, FirstFree(g2.temps));
          assert Run(g, ExprActions(e)).code == AfterExpr(g, e).code;
        }
      } else {
        RunStops(g2, [Generate(BinaryRule(op))]);
      }
    } else {
      RunStops(g1, ExprActions(r));
      RunStops(g1, [Generate(BinaryRule(op))]);
    }
  }

  // ---------------------------------------------------------------- simple statements

  lemma {:induction false} IndexOfAppend(ids: seq<string>, more: seq<string>, name: string)
    ensures name in ids ==> IndexOf(ids + more, name) == IndexOf(ids, name)
    ensures name !in ids ==> IndexOf(ids + more, name) == |ids| + IndexOf(more, name)
  {
    if ids == [] {
      assert ids + more == more;
    } else {
      assert (ids + more)[1..] == ids[1..] + more;
      IndexOfAppend(ids[1..], more, name);
    }
  }

  function AfterSimple(g: Gen, a: Simple): Gen {
    g.(code := g.code + SimpleCode(a, g.temps, g.ids), ids := SimpleIds(a, g.ids))
  }

  lemma MovFires(g: Gen, below: seq<Token>, p: Place, src: Token)
    requires g.status.Ok? && g.stack == below + [PlaceTok(p, Known(p, g.ids)), src] && Operand(src)
    ensures
      var g' := Run(g, [Generate(Mov)]);
      if Resolved(src) then
        g' == g.(stack := below,
                 code := g.code + [OpCell(MovCode), Symbol(src, g.ids), PlaceCell(p, Define(p, g.ids))],
                 temps := Release(g.temps, src),
                 ids := Define(p, g.ids))
      else g'.status.Failed?
  {
    RunOne(g, Generate(Mov));
    assert Below(g.stack) == below + [PlaceTok(p, Known(p, g.ids))];
    assert Below(Below(g.stack)) == below;
    if !Known(p, g.ids) {
      IndexOfAppend(g.ids, [p.name], p.name);
    }
  }

  lemma OneOperandFires(g: Gen, below: seq<Token>, p: Place, rule: Rule)
    requires g.status.Ok? && g.stack == below + [PlaceTok(p, Known(p, g.ids))] && (rule == Inc || rule == Dec)
    ensures
      var g' := Run(g, [Generate(rule)]);
      if Known(p, g.ids) then
        g' == g.(stack := below,
                 code := g.code + [OpCell(if rule == Inc then IncCode else DecCode), PlaceCell(p, g.ids)])
      else g'.status.Failed?
  {
    RunOne(g, Generate(rule));
    assert Below(g.stack) == below;
  }

  lemma PushFires(g: Gen, p: Place)
    requires g.status.Ok?
    ensures Run(g, [PushPlace(p)]) == g.(stack := g.stack + [PlaceTok(p, Known(p, g.ids))])
  {
    RunOne(g, PushPlace(p));
  }

  lemma {:induction false} SimpleGenerates(g: Gen, a: Simple)
    requires g.status.Ok?
    ensures if SimpleOk(a, g.temps, g.ids) then Run(g, SimpleActions(a)) == AfterSimple(g, a)
            else Run(g, SimpleActions(a)).status.Failed?
  {
    hide Run, ExprActions, ExprOk, ExprTemps, ExprToken, ExprCode, Symbol, Release, Known, Define;
    var push := [PushPlace(a.place)];
    var g1 := Run(g, push);
    PushFires(g, a.place);
    match a
    case Assign(p, e) =>
      AssignGenerates(g, p, e);
    case Increment(p) =>
      assert SimpleActions(a) == push + [Generate(Inc)];
      RunAppend(g, push, [Generate(Inc)]);
      OneOperandFires(g1, g.stack, p, Inc);
    case Decrement(p) =>
      assert SimpleActions(a) == push + [Generate(Dec)];
      RunAppend(g, push, [Generate(Dec)]);
      OneOperandFires(g1, g.stack, p, Dec);
  }

  lemma {:induction false} AssignGenerates(g: Gen, p: Place, e: Expr)
    requires g.status.Ok?
    ensures
      var a := Assign(p, e);
      if SimpleOk(a, g.temps, g.ids) then Run(g, SimpleActions(a)) == AfterSimple(g, a)
      else Run(g, SimpleActions(a)).status.Failed?
  {
    hide Run, ExprActions, ExprOk, ExprTemps, ExprToken, ExprCode, Symbol, Release, Known, Define;
    var a, push := Assign(p, e), [PushPlace(p)];
    var g1 := Run(g, push);
    var g2 := Run(g1, ExprActions(e));
    PushFires(g, p);
    RunAppend(g, push, ExprActions(e));
    RunAppend(g, push + ExprActions(e), [Generate(Mov)]);
    ExprGenerates(g1, e);
    UnresolvedToken(e, g.temps, g.ids);
    if g2.status.Ok? {
      var t := ExprToken(e, g.temps, g.ids);
      assert g2.stack == g.stack + [PlaceTok(p, Known(p, g.ids)), t];
      MovFires(g2, g.stack, p, t);
      if ExprOk(e, g.temps, g.ids) {
        OkFits(e, g.temps, g.ids);
        ReleaseExpr(e, g.temps, g.ids);
        var mov := [OpCell(MovCode), ExprSymbol(e, g.temps, g.ids), PlaceCell(p, Define(p, g.ids))];
        assert g.code + ExprCode(e, g.temps, g.ids) + mov == g.code + (ExprCode(e, g.temps, g.ids) + mov);
      }
    } else {
      RunStops(g2, [Generate(Mov)]);
    }
  }
}
