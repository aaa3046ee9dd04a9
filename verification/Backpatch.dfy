/**
 Backpatching: closing the open jumps of a statement turns the code with
 placeholders into the code with the real targets, and touches nothing else.
 */
module Backpatch {
  import opened Words
  import opened Script
  import opened Codegen
  import opened Layout
  import opened Stacks

  /**
   Points the jump operands at `addrs` (+ `offset`) at `target`, the last one first; None if one is
   no jump operand.
   */
  function PatchAll(code: seq<Cell>, addrs: seq<nat>, offset: nat, target: nat): Option<seq<Cell>>
    decreases |addrs|
  {
    if addrs == [] then Some(code)
    else
      var a := addrs[|addrs| - 1] + offset;
      if !Patchable(code, a) then None
      else PatchAll(Patch(code, a, target), addrs[..|addrs| - 1], offset, target)
  }

  lemma {:induction false} PatchAllAppend(code: seq<Cell>, x: seq<nat>, y: seq<nat>, offset: nat, target: nat)
    ensures PatchAll(code, x + y, offset, target) ==
            match PatchAll(code, y, offset, target)
            case None => None
            case Some(c) => PatchAll(c, x, offset, target)
    decreases |y|
  {
    if y == [] {
      assert x + y == x;
    } else {
      var a := y[|y| - 1] + offset;
      assert (x + y)[|x + y| - 1] == y[|y| - 1];
      assert (x + y)[..|x + y| - 1] == x + y[..|y| - 1];
      if Patchable(code, a) {
        PatchAllAppend(Patch(code, a, target), x, y[..|y| - 1], offset, target);
      }
    }
  }

  /** Popping saved addresses down to their marker patches them all. */
  lemma {:induction false} PatchDownAll(below: seq<Token>, mark: Marker, addrs: seq<nat>, code: seq<Cell>, offset: nat,
      target: nat)
    ensures PatchDown(below + [Mark(mark)] + Numbers(addrs), code, mark, offset, target) ==
            match PatchAll(code, addrs, offset, target)
            case None => Stuck
            case Some(c) => Popped(below, c)
    decreases |addrs|
  {
    var stack := below + [Mark(mark)] + Numbers(addrs);
    if addrs == [] {
      assert stack == below + [Mark(mark)];
      assert Below(stack) == below;
    } else {
      var rest := addrs[..|addrs| - 1];
      var a := addrs[|addrs| - 1];
      assert Top(stack) == NumberTok(a);
      assert Below(stack) == below + [Mark(mark)] + Numbers(rest);
      if Patchable(code, a + offset) {
        PatchDownAll(below, mark, rest, Patch(code, a + offset, target), offset, target);
      }
    }
  }

  lemma PatchMiddle(pre: seq<Cell>, old_: nat, post: seq<Cell>, target: nat)
    ensures Patchable(pre + [NumberCell(old_)] + post, |pre|)
    ensures Patch(pre + [NumberCell(old_)] + post, |pre|, target) == pre + [NumberCell(target)] + post
  {
  }

  // ---------------------------------------------------------------- breaks

  /** Closing the breaks of a statement replaces the target `w` by `v` in its code. */
  lemma {:induction false} CloseBreaks(s: Stmt, pre: seq<Cell>, post: seq<Cell>, w: nat, v: nat, cont: nat,
      tm: seq<bool>, ids: seq<string>)
    ensures PatchAll(pre + StmtCode(s, |pre|, w, cont, tm, ids) + post, StmtBreaks(s, |pre|), 0, v)
            == Some(pre + StmtCode(s, |pre|, v, cont, tm, ids) + post)
    decreases s
  {
    match s
    case Seq(a, b) =>
      CloseBreaksSeq(a, b, pre, post, w, v, cont, tm, ids);
    case If(c, t, r) =>
      CloseBreaksIf(c, t, r, pre, post, w, v, cont, tm, ids);
    case Break =>
      var code := pre + StmtCode(s, |pre|, w, cont, tm, ids) + post;
      assert code == (pre + [OpCell(JmpCode)]) + [NumberCell(w)] + post;
      PatchMiddle(pre + [OpCell(JmpCode)], w, post, v);
      assert pre + StmtCode(s, |pre|, v, cont, tm, ids) + post == (pre + [OpCell(JmpCode)]) + [NumberCell(v)] + post;
      var a := [|pre| + 1];
      assert a[..0] == [];
      assert PatchAll(Patch(code, |pre| + 1, v), a[..0], 0, v) == Some(Patch(code, |pre| + 1, v));
    case Skip => case Do(_) => case While(_, _) => case DoWhile(_, _) => case For(_, _, _) =>
    case Continue => case Call(_, _) => case Printf(_, _) =>
  }

  /** Patching two adjacent pieces of code one after the other. */
  lemma PatchTwo(pre: seq<Cell>, xw: seq<Cell>, xv: seq<Cell>, yw: seq<Cell>, yv: seq<Cell>, post: seq<Cell>,
                 ax: seq<nat>, ay: seq<nat>, offset: nat, v: nat)
    requires PatchAll(pre + xw + (yw + post), ax, offset, v) == Some(pre + xv + (yw + post))
    requires PatchAll((pre + xv) + yw + post, ay, offset, v) == Some((pre + xv) + yv + post)
    ensures PatchAll(pre + (xw + yw) + post, ay + ax, offset, v) == Some(pre + (xv + yv) + post)
  {
    hide PatchAll;
    assert pre + (xw + yw) + post == pre + xw + (yw + post);
    assert pre + xv + (yw + post) == (pre + xv) + yw + post;
    assert (pre + xv) + yv + post == pre + (xv + yv) + post;
    PatchAllAppend(pre + (xw + yw) + post, ay, ax, offset, v);
  }

  /** Code in front of a patched piece. */
  lemma PatchAfter(pre: seq<Cell>, c: seq<Cell>, xw: seq<Cell>, xv: seq<Cell>, post: seq<Cell>, ax: seq<nat>,
      offset: nat, v: nat)
    requires PatchAll((pre + c) + xw + post, ax, offset, v) == Some((pre + c) + xv + post)
    ensures PatchAll(pre + (c + xw) + post, ax, offset, v) == Some(pre + (c + xv) + post)
  {
    assert pre + (c + xw) + post == (pre + c) + xw + post;
    assert pre + (c + xv) + post == (pre + c) + xv + post;
  }

  lemma {:induction false} CloseBreaksSeq(a: Stmt, b: Stmt, pre: seq<Cell>, post: seq<Cell>, w: nat, v: nat, cont: nat,
      tm: seq<bool>, ids: seq<string>)
    ensures
      var s := Seq(a, b);
      PatchAll(pre + StmtCode(s, |pre|, w, cont, tm, ids) + post, StmtBreaks(s, |pre|), 0, v)
      == Some(pre + StmtCode(s, |pre|, v, cont, tm, ids) + post)
    decreases Seq(a, b), 0
  {
    hide PatchAll, StmtCode, StmtBreaks, StmtTemps, StmtIds, StmtSize;
    SeqUnfolds(a, b, |pre|, w, cont, tm, ids);
    SeqUnfolds(a, b, |pre|, v, cont, tm, ids);
    var n := |pre| + StmtSize(a);
    var aw, av := StmtCode(a, |pre|, w, cont, tm, ids), StmtCode(a, |pre|, v, cont, tm, ids);
    var ta, ia := StmtTemps(a, tm), StmtIds(a, ids);
    var bw, bv := StmtCode(b, n, w, cont, ta, ia), StmtCode(b, n, v, cont, ta, ia);
    CloseBreaks(a, pre, bw + post, w, v, cont, tm, ids);
    CloseBreaks(b, pre + av, post, w, v, cont, ta, ia);
    PatchTwo(pre, aw, av, bw, bv, post, StmtBreaks(a, |pre|), StmtBreaks(b, n), 0, v);
  }

  lemma {:induction false} CloseBreaksIf(c: Expr, t: Stmt, r: Branches, pre: seq<Cell>, post: seq<Cell>, w: nat,
      v: nat, cont: nat, tm: seq<bool>, ids: seq<string>)
    ensures
      var s := If(c, t, r);
      PatchAll(pre + StmtCode(s, |pre|, w, cont, tm, ids) + post, StmtBreaks(s, |pre|), 0, v)
      == Some(pre + StmtCode(s, |pre|, v, cont, tm, ids) + post)
    decreases If(c, t, r), 0
  {
    hide PatchAll, CondCode, StmtCode, StmtBreaks, StmtTemps, StmtIds, StmtSize, BranchesCode, BranchesBreaks,
      BranchesSize;
    IfUnfolds(c, t, r, |pre|, w, cont, tm, ids);
    IfUnfolds(c, t, r, |pre|, v, cont, tm, ids);
    var start := |pre| + ExprSize(c) + 3;
    var next := start + StmtSize(t);
    var end := next + BranchesSize(r);
    var cc := CondCode(c, next + 2, tm, ids);
    var tw, tv := StmtCode(t, start, w, cont, tm, ids), StmtCode(t, start, v, cont, tm, ids);
    var tt, it := StmtTemps(t, tm), StmtIds(t, ids);
    var rw, rv := BranchesCode(r, next, end, w, cont, tt, it), BranchesCode(r, next, end, v, cont, tt, it);
    CloseBreaks(t, pre + cc, rw + post, w, v, cont, tm, ids);
    CloseBranchBreaks(r, pre + cc + tv, post, end, w, v, cont, tt, it);
    PatchTwo(pre + cc, tw, tv, rw, rv, post, StmtBreaks(t, start), BranchesBreaks(r, next), 0, v);
    PatchAfter(pre, cc, tw + rw, tv + rv, post, BranchesBreaks(r, next) + StmtBreaks(t, start), 0, v);
  }

  lemma {:induction false} CloseBranchBreaks(r: Branches, pre: seq<Cell>, post: seq<Cell>, end: nat, w: nat, v: nat,
      cont: nat, tm: seq<bool>, ids: seq<string>)
    ensures PatchAll(pre + BranchesCode(r, |pre|, end, w, cont, tm, ids) + post, BranchesBreaks(r, |pre|), 0, v)
            == Some(pre + BranchesCode(r, |pre|, end, v, cont, tm, ids) + post)
    decreases r
  {
    hide PatchAll, CondCode, StmtCode, StmtBreaks, StmtTemps, StmtIds, StmtSize, BranchesCode, BranchesBreaks,
      BranchesSize;
    var jmp := [OpCell(JmpCode), NumberCell(end)];
    match r
    case Else(b) =>
      ElseUnfolds(b, |pre|, end, w, cont, tm, ids);
      ElseUnfolds(b, |pre|, end, v, cont, tm, ids);
      CloseBreaks(b, pre + jmp, post, w, v, cont, tm, ids);
      PatchAfter(pre, jmp, StmtCode(b, |pre| + 2, w, cont, tm, ids), StmtCode(b, |pre| + 2, v, cont, tm, ids), post,
          StmtBreaks(b, |pre| + 2), 0, v);
    case ElsIf(c, b, rest) =>
      ElsIfUnfolds(c, b, rest, |pre|, end, w, cont, tm, ids);
      ElsIfUnfolds(c, b, rest, |pre|, end, v, cont, tm, ids);
      var start := |pre| + 2 + ExprSize(c) + 3;
      var next := start + StmtSize(b);
      var cc := jmp + CondCode(c, next + 2, tm, ids);
      var bw, bv := StmtCode(b, start, w, cont, tm, ids), StmtCode(b, start, v, cont, tm, ids);
      var tb, ib := StmtTemps(b, tm), StmtIds(b, ids);
      var rw, rv := BranchesCode(rest, next, end, w, cont, tb, ib), BranchesCode(rest, next, end, v, cont, tb, ib);
      CloseBreaks(b, pre + cc, rw + post, w, v, cont, tm, ids);
      CloseBranchBreaks(rest, pre + cc + bv, post, end, w, v, cont, tb, ib);
      PatchTwo(pre + cc, bw, bv, rw, rv, post, StmtBreaks(b, start), BranchesBreaks(rest, next), 0, v);
      PatchAfter(pre, cc, bw + rw, bv + rv, post, BranchesBreaks(rest, next) + StmtBreaks(b, start), 0, v);
  }

  // ---------------------------------------------------------------- ends of branches

  /** The addresses of the jumps that leave the branches of an `if`, the earliest first. */
  function BranchesJumps(r: Branches, base: nat): seq<nat> {
    match r
    case ElsIf(c, b, rest) => [base] + BranchesJumps(rest, base + 2 + ExprSize(c) + 3 + StmtSize(b))
    case Else(b) => [base]
  }

  lemma {:induction false} CloseEnds(r: Branches, pre: seq<Cell>, post: seq<Cell>, w: nat, v: nat, brk: nat, cont: nat,
      tm: seq<bool>, ids: seq<string>)
    ensures PatchAll(pre + BranchesCode(r, |pre|, w, brk, cont, tm, ids) + post, BranchesJumps(r, |pre|), 1, v)
            == Some(pre + BranchesCode(r, |pre|, v, brk, cont, tm, ids) + post)
    decreases r
  {
    hide PatchAll, CondCode, StmtCode, StmtBreaks, StmtTemps, StmtIds, StmtSize, BranchesCode, BranchesBreaks,
      BranchesSize;
    var jw, jv := [OpCell(JmpCode), NumberCell(w)], [OpCell(JmpCode), NumberCell(v)];
    match r
    case Else(b) =>
      ElseUnfolds(b, |pre|, w, brk, cont, tm, ids);
      ElseUnfolds(b, |pre|, v, brk, cont, tm, ids);
      var code := StmtCode(b, |pre| + 2, brk, cont, tm, ids);
      CloseJump(pre, code + post, w, v);
      assert pre + (jw + code) + post == pre + jw + (code + post);
      assert pre + (jv + code) + post == pre + jv + (code + post);
    case ElsIf(c, b, rest) =>
      ElsIfUnfolds(c, b, rest, |pre|, w, brk, cont, tm, ids);
      ElsIfUnfolds(c, b, rest, |pre|, v, brk, cont, tm, ids);
      var start := |pre| + 2 + ExprSize(c) + 3;
      var next := start + StmtSize(b);
      var mid := CondCode(c, next + 2, tm, ids) + StmtCode(b, start, brk, cont, tm, ids);
      var tb, ib := StmtTemps(b, tm), StmtIds(b, ids);
      var rw, rv := BranchesCode(rest, next, w, brk, cont, tb, ib), BranchesCode(rest, next, v, brk, cont, tb, ib);
      CloseEnds(rest, pre + jw + mid, post, w, v, brk, cont, tb, ib);
      CloseJump(pre, mid + rv + post, w, v);
      PatchFront(pre, jw, jv, mid, rw, rv, post, [|pre|], BranchesJumps(rest, next), v);
      assert jw + mid + rw == jw + CondCode(c, next + 2, tm, ids) + (StmtCode(b, start, brk, cont, tm, ids) + rw);
      assert jv + mid + rv == jv + CondCode(c, next + 2, tm, ids) + (StmtCode(b, start, brk, cont, tm, ids) + rv);
  }

  /** Patching a piece of code and then the jump some way before it. */
  lemma PatchFront(pre: seq<Cell>, jw: seq<Cell>, jv: seq<Cell>, mid: seq<Cell>, rw: seq<Cell>, rv: seq<Cell>,
      post: seq<Cell>,
                   aj: seq<nat>, ar: seq<nat>, v: nat)
    requires PatchAll((pre + jw + mid) + rw + post, ar, 1, v) == Some((pre + jw + mid) + rv + post)
    requires PatchAll(pre + jw + (mid + rv + post), aj, 1, v) == Some(pre + jv + (mid + rv + post))
    ensures PatchAll(pre + (jw + mid + rw) + post, aj + ar, 1, v) == Some(pre + (jv + mid + rv) + post)
  {
    hide PatchAll;
    PatchAllAppend(pre + (jw + mid + rw) + post, aj, ar, 1, v);
    assert pre + (jw + mid + rw) + post == (pre + jw + mid) + rw + post;
    assert (pre + jw + mid) + rv + post == pre + jw + (mid + rv + post);
    assert pre + jv + (mid + rv + post) == pre + (jv + mid + rv) + post;
  }

  lemma CloseJump(pre: seq<Cell>, post: seq<Cell>, w: nat, v: nat)
    ensures PatchAll(pre + [OpCell(JmpCode), NumberCell(w)] + post, [|pre|], 1, v)
            == Some(pre + [OpCell(JmpCode), NumberCell(v)] + post)
  {
    var p := pre + [OpCell(JmpCode)];
    assert pre + [OpCell(JmpCode), NumberCell(w)] + post == p + [NumberCell(w)] + post;
    assert pre + [OpCell(JmpCode), NumberCell(v)] + post == p + [NumberCell(v)] + post;
    PatchMiddle(p, w, post, v);
    assert [|pre|][..0] == [];
    assert PatchAll(p + [NumberCell(v)] + post, [|pre|][..0], 1, v) == Some(p + [NumberCell(v)] + post);
  }
}
