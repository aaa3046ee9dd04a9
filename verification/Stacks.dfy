/**
 The operand stack seen from the outside: which loop a break or a continue
 belongs to, and why saving a break address leaves everything else in place.
 */
module Stacks {
  import opened Words
  import opened Script
  import opened Codegen

  function Numbers(addrs: seq<nat>): (ts: seq<Token>)
    ensures |ts| == |addrs|
    ensures forall i :: 0 <= i < |ts| ==> ts[i] == NumberTok(addrs[i])
  {
    seq(|addrs|, i requires 0 <= i < |addrs| => NumberTok(addrs[i]))
  }

  predicate NoLoop(ts: seq<Token>) {
    forall i :: 0 <= i < |ts| ==> !LoopMark(ts[i])
  }

  predicate NoFor(ts: seq<Token>) {
    forall i :: 0 <= i < |ts| ==> ts[i] != Mark(IncDecMark)
  }

  /** Every loop marker and every @INC_DEC marker has an address right above it. */
  predicate Shaped(stack: seq<Token>) {
    forall i :: 0 <= i < |stack| && (LoopMark(stack[i]) || stack[i] == Mark(IncDecMark)) ==>
      i + 1 < |stack| && stack[i + 1].NumberTok?
  }

  /** The target of a continue: the address saved above the innermost @INC_DEC marker. */
  function ContinueTarget(stack: seq<Token>): nat {
    var above := AboveIncDec(stack);
    if HasFor(stack) && above != [] && above[0].NumberTok? then above[0].value else 0
  }

  /** Where a statement stands, as far as the stack shows it. */
  datatype Spot = TopLevel | ForBody | Nested

  function SpotOf(stack: seq<Token>): Spot {
    if stack == [] then TopLevel
    else if HasFor(stack) && |AboveIncDec(stack)| == 1 then ForBody
    else Nested
  }

  // ---------------------------------------------------------------- loops

  lemma {:induction false} InsertAbove(stack: seq<Token>, extra: seq<Token>, above: seq<Token>)
    requires NoLoop(above)
    ensures Insert(stack + above, extra) == Insert(stack, extra) + above
    ensures HasLoop(stack + above) == HasLoop(stack)
  {
    if above == [] {
      assert stack + above == stack;
      assert Insert(stack, extra) + above == Insert(stack, extra);
    } else {
      var s := stack + above;
      assert Top(s) == Top(above);
      assert Below(s) == stack + Below(above);
      InsertAbove(stack, extra, Below(above));
      assert Insert(stack, extra) + above == (Insert(stack, extra) + Below(above)) + [Top(above)];
    }
  }

  lemma InsertAtMark(stack: seq<Token>, m: Token, extra: seq<Token>)
    requires LoopMark(m)
    ensures Insert(stack + [m], extra) == stack + [m] + extra
    ensures HasLoop(stack + [m])
  {
    assert Top(stack + [m]) == m;
  }

  lemma {:induction false} InsertNothing(stack: seq<Token>)
    ensures Insert(stack, []) == stack
  {
    if stack != [] {
      InsertNothing(Below(stack));
    }
  }

  lemma {:induction false} InsertTwice(stack: seq<Token>, a: seq<Token>, b: seq<Token>)
    requires NoLoop(a)
    ensures Insert(Insert(stack, a), b) == Insert(stack, b + a)
    ensures HasLoop(Insert(stack, a)) == HasLoop(stack)
  {
    if stack != [] {
      var t := Top(stack);
      if LoopMark(t) {
        assert stack == Below(stack) + [t];
        InsertAbove(stack, b, a);
        InsertAtMark(Below(stack), t, b);
        assert stack + b + a == stack + (b + a);
      } else {
        InsertTwice(Below(stack), a, b);
        InsertAbove(Insert(Below(stack), a), b, [t]);
      }
    }
  }

  // ---------------------------------------------------------------- for loops

  lemma {:induction false} AboveForAppend(stack: seq<Token>, above: seq<Token>)
    requires NoFor(above)
    ensures HasFor(stack + above) == HasFor(stack)
    ensures HasFor(stack) ==> AboveIncDec(stack + above) == AboveIncDec(stack) + above
  {
    if above == [] {
      assert stack + above == stack;
    } else {
      assert Top(stack + above) == Top(above);
      assert Below(stack + above) == stack + Below(above);
      AboveForAppend(stack, Below(above));
      if HasFor(stack) {
        assert AboveIncDec(stack + above) == (AboveIncDec(stack) + Below(above)) + [Top(above)];
      }
    }
  }

  /** The innermost `for` of a stack: what is below its @INC_DEC marker and what is above. */
  lemma {:induction false} ForSplit(stack: seq<Token>)
    requires HasFor(stack)
    ensures
      var above := AboveIncDec(stack);
      var k := |stack| - |above| - 1;
      0 <= k && stack == stack[..k] + [Mark(IncDecMark)] + above && NoFor(above)
  {
    if Top(stack) == Mark(IncDecMark) {
      assert stack == Below(stack) + [Top(stack)] + [];
    } else {
      ForSplit(Below(stack));
    }
  }

  lemma AboveForMark(below: seq<Token>, above: seq<Token>)
    requires NoFor(above)
    ensures HasFor(below + [Mark(IncDecMark)] + above)
    ensures AboveIncDec(below + [Mark(IncDecMark)] + above) == above
  {
    var s := below + [Mark(IncDecMark)];
    assert Top(s) == Mark(IncDecMark);
    AboveForAppend(s, above);
  }

  lemma {:induction false} InsertKeepsFor(stack: seq<Token>, extra: seq<Token>)
    requires NoFor(extra)
    ensures HasFor(Insert(stack, extra)) == HasFor(stack)
    ensures HasFor(stack) ==>
      var a, b := AboveIncDec(stack), AboveIncDec(Insert(stack, extra));
      |b| >= |a| && (a != [] ==> b[0] == a[0]) && (!LoopMark(Top(stack)) && |a| <= 1 ==> |b| == |a|)
  {
    if stack != [] {
      if LoopMark(Top(stack)) {
        AboveForAppend(stack, extra);
      } else {
        var t, i := Top(stack), Insert(Below(stack), extra);
        assert Top(i + [t]) == t && Below(i + [t]) == i;
        InsertKeepsFor(Below(stack), extra);
        if HasFor(stack) && t != Mark(IncDecMark) && AboveIncDec(Below(stack)) == [] {
          assert Top(Below(stack)) == Mark(IncDecMark);
        }
      }
    }
  }

  lemma {:induction false} InsertKeepsShape(stack: seq<Token>, extra: seq<Token>)
    requires Shaped(stack) && NoFor(extra) && NoLoop(extra)
    requires forall i :: 0 <= i < |extra| ==> extra[i].NumberTok?
    ensures Shaped(Insert(stack, extra))
  {
    if HasLoop(stack) {
      var k := LoopSplit(stack);
      InsertAtMark(stack[..k], stack[k], extra);
      InsertAbove(stack[..k] + [stack[k]], extra, stack[k + 1..]);
      assert stack == stack[..k] + [stack[k]] + stack[k + 1..];
    } else {
      InsertNowhere(stack, extra);
    }
  }

  lemma {:induction false} LoopSplit(stack: seq<Token>) returns (k: nat)
    requires HasLoop(stack)
    ensures k < |stack| && LoopMark(stack[k]) && NoLoop(stack[k + 1..])
  {
    k := |stack| - 1;
    if !LoopMark(Top(stack)) {
      k := LoopSplit(Below(stack));
    }
  }

  lemma {:induction false} InsertNowhere(stack: seq<Token>, extra: seq<Token>)
    requires !HasLoop(stack)
    ensures Insert(stack, extra) == stack
  {
    if stack != [] {
      InsertNowhere(Below(stack), extra);
    }
  }

  /** Saving break addresses changes nothing a later statement can see. */
  lemma InsertIsInvisible(stack: seq<Token>, addrs: seq<nat>)
    requires Shaped(stack)
    ensures
      var s := Insert(stack, Numbers(addrs));
      && Shaped(s)
      && HasLoop(s) == HasLoop(stack)
      && HasFor(s) == HasFor(stack)
      && ContinueTarget(s) == ContinueTarget(stack)
      && SpotOf(s) == SpotOf(stack)
  {
    var extra := Numbers(addrs);
    InsertKeepsShape(stack, extra);
    InsertTwice(stack, extra, []);
    InsertKeepsFor(stack, extra);
    if HasFor(stack) {
      ForSplit(stack);
      var k := |stack| - |AboveIncDec(stack)| - 1;
      assert stack[k] == Mark(IncDecMark);
    }
  }

  /** In a well-shaped stack the innermost `for` has its step address saved. */
  lemma SavedAddress(stack: seq<Token>)
    requires Shaped(stack) && HasFor(stack)
    ensures AboveIncDec(stack) != [] && AboveIncDec(stack)[0] == NumberTok(ContinueTarget(stack))
  {
    ForSplit(stack);
    var k := |stack| - |AboveIncDec(stack)| - 1;
    assert stack[k] == Mark(IncDecMark);
    assert stack[k + 1] == AboveIncDec(stack)[0];
  }

  /** Pushing tokens that open no `for` keeps the continue target and leaves the spot nested. */
  lemma PushContext(stack: seq<Token>, extra: seq<Token>)
    requires Shaped(stack) && NoFor(extra) && extra != []
    ensures HasFor(stack + extra) == HasFor(stack)
    ensures ContinueTarget(stack + extra) == ContinueTarget(stack)
    ensures SpotOf(stack + extra) == Nested
  {
    AboveForAppend(stack, extra);
    if HasFor(stack) {
      SavedAddress(stack);
    }
  }

  /** The context of a `for` body. */
  lemma ForContext(stack: seq<Token>, jz: nat, step: nat)
    requires Shaped(stack)
    ensures
      var s := stack + [Mark(ForMark), NumberTok(jz), Mark(IncDecMark), NumberTok(step)];
      Shaped(s) && HasLoop(s) && HasFor(s) && ContinueTarget(s) == step && SpotOf(s) == ForBody
  {
    hide Insert, HasLoop, HasFor, AboveIncDec;
    var s := stack + [Mark(ForMark), NumberTok(jz), Mark(IncDecMark), NumberTok(step)];
    assert s == (stack + [Mark(ForMark), NumberTok(jz)]) + [Mark(IncDecMark)] + [NumberTok(step)];
    AboveForMark(stack + [Mark(ForMark), NumberTok(jz)], [NumberTok(step)]);
    assert s == (stack + [Mark(ForMark)]) + [NumberTok(jz), Mark(IncDecMark), NumberTok(step)];
    InsertAtMark(stack, Mark(ForMark), []);
    InsertAbove(stack + [Mark(ForMark)], [], [NumberTok(jz), Mark(IncDecMark), NumberTok(step)]);
  }

  /** The context of a `while` or `do-while` body. */
  lemma LoopContext(stack: seq<Token>, m: Marker, addrs: seq<nat>)
    requires Shaped(stack) && LoopMark(Mark(m)) && addrs != []
    ensures
      var s := stack + [Mark(m)] + Numbers(addrs);
      Shaped(s) && HasLoop(s) && HasFor(s) == HasFor(stack) && ContinueTarget(s) == ContinueTarget(stack) &&
          SpotOf(s) == Nested
  {
    hide Insert, HasLoop, HasFor, AboveIncDec, ContinueTarget, SpotOf;
    InsertAtMark(stack, Mark(m), []);
    InsertAbove(stack + [Mark(m)], [], Numbers(addrs));
    PushContext(stack, [Mark(m)] + Numbers(addrs));
    assert stack + [Mark(m)] + Numbers(addrs) == stack + ([Mark(m)] + Numbers(addrs));
  }
}
