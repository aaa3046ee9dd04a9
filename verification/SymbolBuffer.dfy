/**
 The growing buffer of 16-byte cells that `PushSymbol` writes.  A plain symbol is
 one cell of type and value; a string starts at the value of its first cell and
 runs on, with its terminator, into as many cells as were counted for it.
 */
module SymbolBuffer {
  const SYMBOL_BUFFER_INIT_SIZE: nat := 64
  const CELL: nat := 16

  type u8 = x: nat | x < 256

  datatype Symbol = Plain(kind: seq<u8>, value: seq<u8>) | Text(kind: seq<u8>, chars: seq<u8>)

  predicate Proper(s: Symbol) {
    |s.kind| == 8 && (s.Plain? ==> |s.value| == 8) && (s.Text? ==> 0 !in s.chars)
  }

  /** The cells of a symbol: for a string, 8 bytes of type and the characters in whole cells, and one more. */
  function Cells(s: Symbol): nat {
    if s.Plain? then 1 else (8 + |s.chars|) / CELL + 1
  }

  /** The bytes written for a symbol. */
  function Image(s: Symbol): seq<u8> {
    s.kind + if s.Plain? then s.value else s.chars + [0]
  }

  /** The cells reserved for a symbol hold all that is written, terminator included. */
  lemma ImageFits(s: Symbol)
    requires Proper(s)
    ensures |Image(s)| <= CELL * Cells(s)
  {
  }

  function Start(symbols: seq<Symbol>, i: nat): nat
    requires i <= |symbols|
  {
    if i == 0 then 0 else Start(symbols, i - 1) + Cells(symbols[i - 1])
  }

  predicate Stored(memory: seq<u8>, at: nat, s: Symbol) {
    CELL * at + |Image(s)| <= |memory| && memory[CELL * at..CELL * at + |Image(s)|] == Image(s)
  }

  predicate Laid(memory: seq<u8>, symbols: seq<Symbol>) {
    forall i :: 0 <= i < |symbols| ==> Stored(memory, Start(symbols, i), symbols[i])
  }

  // ---------------------------------------------------------------- reading back

  /** The characters up to the first zero. */
  function CString(memory: seq<u8>): seq<u8> {
    if memory == [] || memory[0] == 0 then [] else [memory[0]] + CString(memory[1..])
  }

  lemma {:induction false} CStringEnds(chars: seq<u8>, rest: seq<u8>)
    requires 0 !in chars
    ensures CString(chars + [0] + rest) == chars
    decreases |chars|
  {
    var all := chars + [0] + rest;
    if chars != [] {
      assert chars[0] in chars;
      assert all[0] == chars[0] && all[1..] == chars[1..] + [0] + rest;
      CStringEnds(chars[1..], rest);
    }
  }

  /** A stored string reads back whole, and so takes up the cells that were counted when it was pushed. */
  lemma StringReadsBack(memory: seq<u8>, at: nat, s: Symbol)
    requires Proper(s) && s.Text? && Stored(memory, at, s)
    ensures CString(memory[CELL * at + 8..]) == s.chars
    ensures (8 + |CString(memory[CELL * at + 8..])|) / CELL + 1 == Cells(s)
  {
    var from, end := CELL * at, CELL * at + |Image(s)|;
    assert memory[from + 8..end] == memory[from..end][8..] == s.chars + [0];
    assert memory[from + 8..] == s.chars + [0] + memory[end..];
    CStringEnds(s.chars, memory[end..]);
  }

  // ---------------------------------------------------------------- layout

  lemma {:induction false} StartGrows(symbols: seq<Symbol>, i: nat, j: nat)
    requires i < j <= |symbols|
    ensures Start(symbols, i) + Cells(symbols[i]) <= Start(symbols, j)
    decreases j
  {
    if i < j - 1 {
      StartGrows(symbols, i, j - 1);
    }
  }

  lemma {:induction false} StartSame(symbols: seq<Symbol>, s: Symbol, i: nat)
    requires i <= |symbols|
    ensures Start(symbols + [s], i) == Start(symbols, i)
    decreases i
  {
    if i != 0 {
      StartSame(symbols, s, i - 1);
    }
  }

  lemma StoredKept(memory: seq<u8>, memory': seq<u8>, n: nat, at: nat, s: Symbol)
    requires Stored(memory, at, s) && CELL * at + |Image(s)| <= n
    requires n <= |memory| && n <= |memory'| && memory[..n] == memory'[..n]
    ensures Stored(memory', at, s)
  {
    hide Image;
    var from, end := CELL * at, CELL * at + |Image(s)|;
    assert memory'[from..end] == memory'[..n][from..end];
    assert memory[from..end] == memory[..n][from..end];
  }

  /** Bytes before the new symbol are kept, so everything laid out before stays where it is. */
  lemma LaidKept(memory: seq<u8>, memory': seq<u8>, symbols: seq<Symbol>)
    requires (forall s :: s in symbols ==> Proper(s)) && Laid(memory, symbols)
    requires var n := CELL * Start(symbols, |symbols|); n <= |memory| && n <= |memory'| && memory[..n] == memory'[..n]
    ensures Laid(memory', symbols)
  {
    hide Start, Image, Stored, Cells, Proper;
    var n := CELL * Start(symbols, |symbols|);
    forall i | 0 <= i < |symbols| ensures Stored(memory', Start(symbols, i), symbols[i]) {
      StartGrows(symbols, i, |symbols|);
      ImageFits(symbols[i]);
      StoredKept(memory, memory', n, Start(symbols, i), symbols[i]);
    }
  }

  lemma LaidSnoc(memory: seq<u8>, symbols: seq<Symbol>, s: Symbol)
    requires Laid(memory, symbols) && Stored(memory, Start(symbols, |symbols|), s)
    ensures Laid(memory, symbols + [s])
    ensures Start(symbols + [s], |symbols| + 1) == Start(symbols, |symbols|) + Cells(s)
  {
    hide Stored, Start, Cells;
    var all := symbols + [s];
    forall i | 0 <= i < |all| ensures Stored(memory, Start(all, i), all[i]) {
      StartSame(symbols, s, i);
      assert all[i] == if i < |symbols| then symbols[i] else s;
    }
    StartSame(symbols, s, |symbols|);
    StartNext(all, |symbols|);
  }

  lemma StartNext(symbols: seq<Symbol>, i: nat)
    requires i < |symbols|
    ensures Start(symbols, i + 1) == Start(symbols, i) + Cells(symbols[i])
  {
  }

  lemma PrefixKept(bigger: seq<u8>, memory: seq<u8>, start: nat, end: nat)
    requires start <= end <= |memory| <= |bigger| && forall i :: 0 <= i < |memory| ==> bigger[i] == memory[i]
    ensures bigger[..start] == memory[..start] && bigger[start..end] == memory[start..end]
  {
  }

  // ---------------------------------------------------------------- the buffer

  class Buffer {
    var head: array<u8>
    var size: nat
    var pointer: nat
    ghost var symbols: seq<Symbol>

    ghost predicate Valid()
      reads this, head
    {
      && head.Length == CELL * size
      && pointer < size
      && pointer == Start(symbols, |symbols|)
      && (forall s :: s in symbols ==> Proper(s))
      && Laid(head[..], symbols)
    }

    constructor ()
      ensures Valid() && fresh(head) && symbols == [] && pointer == 0 && size == SYMBOL_BUFFER_INIT_SIZE
    {
      head := new u8[CELL * SYMBOL_BUFFER_INIT_SIZE];
      size, pointer, symbols := SYMBOL_BUFFER_INIT_SIZE, 0, [];
    }

    /** Moves to a larger block; the old bytes come along. */
    method Grow(newSize: nat)
      requires head.Length == CELL * size && size <= newSize
      modifies this`head, this`size
      ensures fresh(head) && size == newSize && head.Length == CELL * size
      ensures forall i :: 0 <= i < old(head.Length) ==> head[i] == old(head[i])
    {
      var bigger := new u8[CELL * newSize];
      forall i | 0 <= i < head.Length {
        bigger[i] := head[i];
      }
      head, size := bigger, newSize;
    }

    /** Writes the bytes of a symbol at a cell. */
    method WriteAt(at: nat, bytes: seq<u8>)
      requires CELL * at + |bytes| <= head.Length
      modifies head
      ensures head[CELL * at..CELL * at + |bytes|] == bytes
      ensures head[..CELL * at] == old(head[..CELL * at])
    {
      for i := 0 to |bytes|
        invariant head[CELL * at..CELL * at + i] == bytes[..i]
        invariant head[..CELL * at] == old(head[..CELL * at])
      {
        head[CELL * at + i] := bytes[i];
        assert head[CELL * at..CELL * at + i + 1] == head[CELL * at..CELL * at + i] + [bytes[i]];
      }
      assert bytes[..|bytes|] == bytes;
    }

    /**
     A string: the pointer moves first, then the buffer doubles until it is past the pointer, then
     the bytes are written.
     */
    method PlaceText(s: Symbol)
      requires head.Length == CELL * size && pointer < size && Proper(s) && s.Text?
      modifies this`head, this`size, this`pointer, head
      ensures head.Length == CELL * size && pointer == old(pointer) + Cells(s) < size
      ensures head[..CELL * old(pointer)] == old(head[..CELL * pointer])
      ensures CELL * old(pointer) + |Image(s)| <= head.Length
      ensures head[CELL * old(pointer)..CELL * old(pointer) + |Image(s)|] == Image(s)
      ensures head == old(head) || fresh(head)
    {
      hide Image;
      ghost var memory := head[..];
      var at := pointer;
      ImageFits(s);
      pointer := pointer + (8 + |s.chars|) / CELL + 1;
      if pointer >= size - 1 {
        var newSize := size * 2;
        while newSize <= pointer
          invariant size < newSize
          decreases pointer - newSize
        {
          newSize := newSize * 2;
        }
        Grow(newSize);
        PrefixKept(head[..], memory, CELL * at, CELL * at);
      }
      WriteAt(at, Image(s));
    }

    /** A plain symbol: written at the pointer; a buffer that became full doubles. */
    method PlacePlain(s: Symbol)
      requires head.Length == CELL * size && pointer < size && Proper(s) && s.Plain?
      modifies this`head, this`size, this`pointer, head
      ensures head.Length == CELL * size && pointer == old(pointer) + Cells(s) < size
      ensures head[..CELL * old(pointer)] == old(head[..CELL * pointer])
      ensures CELL * old(pointer) + |Image(s)| <= head.Length
      ensures head[CELL * old(pointer)..CELL * old(pointer) + |Image(s)|] == Image(s)
      ensures head == old(head) || fresh(head)
    {
      hide Image;
      var at := pointer;
      ImageFits(s);
      WriteAt(at, Image(s));
      pointer := pointer + 1;
      if at == size - 1 {
        ghost var written := head[..];
        Grow(2 * size);
        PrefixKept(head[..], written, CELL * at, CELL * at + |Image(s)|);
      }
    }

    /** Appends a symbol: what was there stays, and there is always a free cell after it. */
    method PushSymbol(s: Symbol)
      requires Valid() && Proper(s)
      modifies this, head
      ensures Valid()
      ensures symbols == old(symbols) + [s] && pointer == old(pointer) + Cells(s)
      ensures head == old(head) || fresh(head)
    {
      hide Start, Image, Laid, Cells;
      ghost var memory := head[..];
      if s.Text? {
        PlaceText(s);
      } else {
        PlacePlain(s);
      }
      LaidKept(memory, head[..], symbols);
      LaidSnoc(head[..], symbols, s);
      symbols := symbols + [s];
    }
  }
}
