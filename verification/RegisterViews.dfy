/**
 The views of a register over any sequence of writes: a register is eight bytes,
 and the last write to a byte is what every view reads there.
 */
module RegisterViews {
  import opened Words
  import opened Registers

  type ByteIndex = i: int | 0 <= i < 8

  function ByteAt(x: bv64, i: ByteIndex): bv64 {
    match i
    case 0 => x & 0xff
    case 1 => (x >> 8) & 0xff
    case 2 => (x >> 16) & 0xff
    case 3 => (x >> 24) & 0xff
    case 4 => (x >> 32) & 0xff
    case 5 => (x >> 40) & 0xff
    case 6 => (x >> 48) & 0xff
    case 7 => (x >> 56) & 0xff
  }

  /** The bytes a view stands for: `Span(v)` of them from `From(v)`. */
  function From(v: View): ByteIndex {
    if v.High8? then 1 else 0
  }

  function Span(v: View): nat {
    match v
    case Full => 8
    case Low32 => 4
    case Low16 => 2
    case High8 => 1
    case Low8 => 1
  }

  predicate Covers(v: View, i: ByteIndex) {
    From(v) <= i < From(v) + Span(v)
  }

  datatype Write = Write(reg: GuestReg, value: bv64)

  function Written(regs: RegFile, writes: seq<Write>): RegFile
    decreases |writes|
  {
    if writes == [] then regs
    else
      var w := writes[|writes| - 1];
      Set(Written(regs, writes[..|writes| - 1]), w.reg, w.value)
  }

  /** What the last write to a byte put there; without one, what was there before. */
  function LastByte(regs: RegFile, writes: seq<Write>, base: Base, i: ByteIndex): bv64
    decreases |writes|
  {
    if writes == [] then ByteAt(regs[base], i)
    else
      var w := writes[|writes| - 1];
      if w.reg.base == base && Covers(w.reg.view, i) then ByteAt(w.value, i - From(w.reg.view))
      else LastByte(regs, writes[..|writes| - 1], base, i)
  }

  lemma Merge32(x: bv64, v: bv64, i: ByteIndex)
    ensures ByteAt(Merge(x, Low32, v), i) == ByteAt(if i < 4 then v else x, i)
  {
  }

  lemma Merge16(x: bv64, v: bv64, i: ByteIndex)
    ensures ByteAt(Merge(x, Low16, v), i) == ByteAt(if i < 2 then v else x, i)
  {
  }

  lemma MergeHigh(x: bv64, v: bv64, i: ByteIndex)
    ensures ByteAt(Merge(x, High8, v), i) == if i == 1 then ByteAt(v, 0) else ByteAt(x, i)
  {
  }

  lemma MergeLow(x: bv64, v: bv64, i: ByteIndex)
    ensures ByteAt(Merge(x, Low8, v), i) == ByteAt(if i == 0 then v else x, i)
  {
  }

  lemma MergeFull(x: bv64, v: bv64)
    ensures Merge(x, Full, v) == v
  {
  }

  /** One write changes the bytes of its view to the low bytes of the value, and nothing else. */
  lemma SetBytes(regs: RegFile, r: GuestReg, v: bv64, base: Base, i: ByteIndex)
    ensures ByteAt(Set(regs, r, v)[base], i) ==
            if r.base == base && Covers(r.view, i) then ByteAt(v, i - From(r.view)) else ByteAt(regs[base], i)
  {
    hide ByteAt, Merge;
    if r.base == base {
      var x := regs[base];
      match r.view
      case Full => MergeFull(x, v);
      case Low32 => Merge32(x, v, i);
      case Low16 => Merge16(x, v, i);
      case High8 => MergeHigh(x, v, i);
      case Low8 => MergeLow(x, v, i);
    }
  }

  lemma Extract32(x: bv64, i: ByteIndex)
    ensures ByteAt(Extract(x, Low32), i) == if i < 4 then ByteAt(x, i) else 0
  {
  }

  lemma Extract16(x: bv64, i: ByteIndex)
    ensures ByteAt(Extract(x, Low16), i) == if i < 2 then ByteAt(x, i) else 0
  {
  }

  lemma ExtractHigh(x: bv64, i: ByteIndex)
    ensures ByteAt(Extract(x, High8), i) == if i == 0 then ByteAt(x, 1) else 0
  {
  }

  lemma ExtractLow(x: bv64, i: ByteIndex)
    ensures ByteAt(Extract(x, Low8), i) == if i == 0 then ByteAt(x, i) else 0
  {
  }

  lemma ExtractFull(x: bv64)
    ensures Extract(x, Full) == x
  {
  }

  /** A view reads its bytes, with zeros above. */
  lemma GetBytes(regs: RegFile, r: GuestReg, i: ByteIndex)
    ensures ByteAt(Get(regs, r), i) == if i < Span(r.view) then ByteAt(regs[r.base], From(r.view) + i) else 0
  {
    hide ByteAt, Extract;
    var x := regs[r.base];
    match r.view
    case Full => ExtractFull(x);
    case Low32 => Extract32(x, i);
    case Low16 => Extract16(x, i);
    case High8 => ExtractHigh(x, i);
    case Low8 => ExtractLow(x, i);
  }

  /** A word is determined by its bytes. */
  lemma SameBytes(x: bv64, y: bv64)
    requires forall i: ByteIndex :: ByteAt(x, i) == ByteAt(y, i)
    ensures x == y
  {
    assert ByteAt(x, 0) == ByteAt(y, 0) && ByteAt(x, 1) == ByteAt(y, 1);
    assert ByteAt(x, 2) == ByteAt(y, 2) && ByteAt(x, 3) == ByteAt(y, 3);
    assert ByteAt(x, 4) == ByteAt(y, 4) && ByteAt(x, 5) == ByteAt(y, 5);
    assert ByteAt(x, 6) == ByteAt(y, 6) && ByteAt(x, 7) == ByteAt(y, 7);
  }

  lemma {:induction false} BytesAfter(regs: RegFile, writes: seq<Write>, base: Base, i: ByteIndex)
    ensures ByteAt(Written(regs, writes)[base], i) == LastByte(regs, writes, base, i)
    decreases |writes|
  {
    hide ByteAt, Set;
    if writes != [] {
      var w, front := writes[|writes| - 1], writes[..|writes| - 1];
      BytesAfter(regs, front, base, i);
      SetBytes(Written(regs, front), w.reg, w.value, base, i);
    }
  }

  /** The word whose bytes are the last writes is the register. */
  lemma RegisterIs(regs: RegFile, writes: seq<Write>, base: Base, x: bv64)
    requires forall i: ByteIndex :: ByteAt(x, i) == LastByte(regs, writes, base, i)
    ensures Written(regs, writes)[base] == x
  {
    hide ByteAt, LastByte, Written;
    forall i: ByteIndex ensures ByteAt(Written(regs, writes)[base], i) == ByteAt(x, i) {
      BytesAfter(regs, writes, base, i);
    }
    SameBytes(Written(regs, writes)[base], x);
  }

  /** After any writes, every view of every register reads the overlay of the writes. */
  lemma ViewsReadLastWrites(regs: RegFile, writes: seq<Write>, r: GuestReg, i: ByteIndex)
    ensures ByteAt(Get(Written(regs, writes), r), i) ==
            if i < Span(r.view) then LastByte(regs, writes, r.base, From(r.view) + i) else 0
  {
    hide ByteAt, Get;
    GetBytes(Written(regs, writes), r, i);
    if i < Span(r.view) {
      BytesAfter(regs, writes, r.base, From(r.view) + i);
    }
  }

  /** A register none of the writes names is unchanged. */
  lemma {:induction false} OthersUnchanged(regs: RegFile, writes: seq<Write>, base: Base)
    requires forall w :: w in writes ==> w.reg.base != base
    ensures Written(regs, writes)[base] == regs[base]
    decreases |writes|
  {
    hide Get;
    if writes != [] {
      assert writes[|writes| - 1] in writes;
      OthersUnchanged(regs, writes[..|writes| - 1], base);
    }
  }
}
