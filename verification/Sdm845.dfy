/**
 The receive side of the SDM845 UART driver: a block of up to 128 bytes is copied
 out of the device's FIFO at a time and served byte by byte.
 */
module Sdm845 {
  import opened Serial

  const MAX_RX_FIFO_SIZE: nat := 128

  /**
   What the device's registers would answer during one call: the valid bytes of a
   partial last word, the word count, the watermark interrupt and its 6-bit level,
   and the FIFO words by index.
   */
  datatype Line = Line(partial: nat, count: nat, watermarkIrq: bool, watermark: nat, fifo: nat -> u32)

  /** The ranges of the register fields; a partial word has at most four bytes. */
  predicate Plausible(l: Line) {
    l.partial <= RX_FIFO_WIDTH && l.count <= 0x1FFFFFF && l.watermark <= 0x3F
  }

  /** The whole words to read; without any word counted but a partial one, the counter wraps. */
  function WordsToRead(l: Line): u32
    requires Plausible(l)
  {
    if l.partial > 0 || l.count > 0 then
      if l.partial != 0 && l.partial != 4 then Wrap(l.count - 1) else l.count
    else if l.watermarkIrq then l.watermark
    else l.count
  }

  /** The 32-bit byte count. */
  function Available(l: Line): u32
    requires Plausible(l)
  {
    (WordsToRead(l) * RX_FIFO_WIDTH + l.partial) % TWO32
  }

  function Words(l: Line, n: nat): (w: seq<u32>)
    ensures |w| == n
  {
    if n == 0 then [] else Words(l, n - 1) + [l.fifo(n - 1)]
  }

  /** The bytes a refill copies: whole words, then the valid bytes of the partial one. */
  function Block(l: Line): (b: seq<u8>)
    requires Plausible(l)
  {
    AllBytes(Words(l, WordsToRead(l))) + Bytes(l.fifo(WordsToRead(l)))[..l.partial]
  }

  /** Only a block that fits the buffer is accepted. */
  predicate Accepts(l: Line)
    requires Plausible(l)
  {
    Available(l) <= MAX_RX_FIFO_SIZE
  }

  /**
   An accepted block has exactly the counted bytes; a full last word adds one word to the count; a
   wrapped count is never accepted.
   */
  lemma BlockIsCounted(l: Line)
    requires Plausible(l)
    ensures Accepts(l) ==> |Block(l)| == Available(l)
    ensures Accepts(l) <==> |Block(l)| <= MAX_RX_FIFO_SIZE
    ensures l.partial == 4 ==> |Block(l)| == RX_FIFO_WIDTH * (l.count + 1)
    ensures l.count == 0 && 0 < l.partial < 4 ==> WordsToRead(l) == TWO32 - 1 && !Accepts(l)
  {
    hide AllBytes;
  }

  // ---------------------------------------------------------------- the queue

  /** The bytes to serve, those handed out, and the blocks copied so far. */
  datatype Run = Run(queue: seq<u8>, out: seq<u8>, blocks: seq<seq<u8>>)

  function Refilled(r: Run, l: Line): Run
    requires Plausible(l)
  {
    if r.queue == [] && Accepts(l) then r.(queue := Block(l), blocks := r.blocks + [Block(l)]) else r
  }

  function Got(r: Run, l: Line): (Run, Status)
    requires Plausible(l)
  {
    if r.queue == [] && !Accepts(l) then (r, NotReady)
    else
      var f := Refilled(r, l);
      if f.queue == [] then (f, NoData) else (f.(queue := f.queue[1..], out := f.out + [f.queue[0]]), Success)
  }

  function After(r: Run, lines: seq<Line>): Run
    requires forall l :: l in lines ==> Plausible(l)
    decreases |lines|
  {
    if lines == [] then r else After(Got(r, lines[0]).0, lines[1..])
  }

  function Joined(blocks: seq<seq<u8>>): seq<u8> {
    if blocks == [] then [] else Joined(blocks[..|blocks| - 1]) + blocks[|blocks| - 1]
  }

  predicate Accounted(r: Run) {
    && r.out + r.queue == Joined(r.blocks)
    && |r.queue| <= MAX_RX_FIFO_SIZE
    && forall b :: b in r.blocks ==> |b| <= MAX_RX_FIFO_SIZE
  }

  lemma JoinedSnoc(blocks: seq<seq<u8>>, b: seq<u8>)
    ensures Joined(blocks + [b]) == Joined(blocks) + b
  {
    assert (blocks + [b])[..|blocks|] == blocks;
  }

  lemma GotAccounts(r: Run, l: Line)
    requires Accounted(r) && Plausible(l)
    ensures Accounted(Got(r, l).0)
  {
    hide Joined, Block, Available;
    BlockIsCounted(l);
    JoinedSnoc(r.blocks, Block(l));
    var f := Refilled(r, l);
    assert Accounted(f) by {
      assert r.out + [] == r.out;
    }
    if f.queue != [] {
      assert f.out + [f.queue[0]] + f.queue[1..] == f.out + f.queue;
    }
  }

  /** Over any calls: the bytes handed out and those left are the copied blocks in order, none over 128 bytes. */
  lemma {:induction false} RunAccounts(r: Run, lines: seq<Line>)
    requires Accounted(r) && forall l :: l in lines ==> Plausible(l)
    ensures Accounted(After(r, lines))
    decreases |lines|
  {
    hide Accounted, Got;
    if lines != [] {
      assert Plausible(lines[0]);
      GotAccounts(r, lines[0]);
      RunAccounts(Got(r, lines[0]).0, lines[1..]);
    }
  }

  // ---------------------------------------------------------------- the driver as it is written

  class Receiver {
    const buffer: array<u8>
    var next: nat
    var available: nat
    ghost var run: Run

    ghost predicate Valid()
      reads this, buffer
    {
      && buffer.Length == MAX_RX_FIFO_SIZE
      && next + available <= buffer.Length
      && run.queue == buffer[next..next + available]
    }

    constructor ()
      ensures Valid() && fresh(buffer) && run == Run([], [], [])
    {
      buffer := new u8[MAX_RX_FIFO_SIZE](_ => 0);
      next, available, run := 0, 0, Run([], [], []);
      new;
      assert buffer[0..0] == [];
    }

    /** Copies whole words, lowest byte first. */
    method CopyWords(line: Line, words: nat)
      requires words * RX_FIFO_WIDTH <= buffer.Length == MAX_RX_FIFO_SIZE
      modifies buffer
      ensures buffer[..words * RX_FIFO_WIDTH] == AllBytes(Words(line, words))
    {
      hide AllBytes, Bytes;
      var at := 0;
      NoBytes(line);
      for i := 0 to words
        invariant at == i * RX_FIFO_WIDTH
        invariant buffer[..at] == AllBytes(Words(line, i))
      {
        ghost var before := buffer[..at];
        WordsNext(line, i);
        var w := line.fifo(i);
        buffer[at] := w % 256;
        buffer[at + 1] := w / 256 % 256;
        buffer[at + 2] := w / 256 / 256 % 256;
        buffer[at + 3] := w / 256 / 256 / 256 % 256;
        BytesAre(w);
        assert buffer[..at + 4] == before + [buffer[at], buffer[at + 1], buffer[at + 2], buffer[at + 3]];
        at := at + 4;
      }
    }

    method CopyPartial(w: u32, at: nat, count: nat)
      requires count <= RX_FIFO_WIDTH && at + count <= buffer.Length
      modifies buffer
      ensures buffer[..at] == old(buffer[..at]) && buffer[at..at + count] == Bytes(w)[..count]
    {
      hide Bytes;
      var rest := w;
      BytesAre(w);
      for i := 0 to count
        invariant buffer[..at] == old(buffer[..at])
        invariant buffer[at..at + i] == Bytes(w)[..i]
        invariant rest == (if i == 0 then w else if i == 1 then w / 256 else if i == 2 then w / 256 / 256 else if i ==
          3 then w / 256 / 256 / 256 else 0)
      {
        buffer[at + i] := rest % 256;
        rest := if i == 3 then 0 else rest / 256;
        assert buffer[at..at + i + 1] == buffer[at..at + i] + [buffer[at + i]];
      }
    }

    /** Copies a block when it fits; otherwise the port is set up anew and the buffer stays empty. */
    method Refill(line: Line) returns (fits: bool)
      requires Valid() && Plausible(line) && available == 0
      modifies this, buffer
      ensures Valid() && fits == Accepts(line) && run == Refilled(old(run), line)
    {
      hide AllBytes, Bytes, Words;
      BlockIsCounted(line);
      next := 0;
      var words := line.count;
      if line.partial > 0 || line.count > 0 {
        if line.partial != 0 && line.partial != 4 {
          words := Wrap(words - 1);
        }
      } else if line.watermarkIrq {
        words := line.watermark;
      }
      assert words == WordsToRead(line);
      var total := (words * RX_FIFO_WIDTH + line.partial) % TWO32;
      fits := total <= MAX_RX_FIFO_SIZE;
      if fits {
        available := total;
        CopyWords(line, words);
        ghost var whole := words * RX_FIFO_WIDTH;
        CopyPartial(line.fifo(words), words * RX_FIFO_WIDTH, line.partial);
        assert buffer[0..total] == buffer[..whole] + buffer[whole..total];
        run := Refilled(run, line);
      }
    }

    method GetByte(attached: bool, line: Line) returns (status: Status, byte: u8)
      requires Valid() && Plausible(line)
      modifies this, buffer
      ensures Valid()
      ensures !attached ==> run == old(run) && status == NotReady
      ensures attached ==> (run, status) == Got(old(run), line)
      ensures attached && status == Success ==> run.out == old(run.out) + [byte]
    {
      hide AllBytes, Bytes;
      byte := 0;
      if !attached {
        return NotReady, 0;
      }
      if available == 0 {
        var fits := Refill(line);
        if !fits {
          return NotReady, 0;
        }
      }
      if available != 0 {
        byte := buffer[next];
        next, available := next + 1, available - 1;
        run := run.(queue := run.queue[1..], out := run.out + [run.queue[0]]);
        return Success, byte;
      }
      status := NoData;
    }
  }

  lemma NoBytes(l: Line)
    ensures AllBytes(Words(l, 0)) == []
  {
  }

  lemma WordsNext(l: Line, n: nat)
    ensures AllBytes(Words(l, n + 1)) == AllBytes(Words(l, n)) + Bytes(l.fifo(n))
  {
    AllBytesSnoc(Words(l, n), l.fifo(n));
  }

  lemma BytesAre(w: u32)
    ensures Bytes(w) == [w % 256, w / 256 % 256, w / 256 / 256 % 256, w / 256 / 256 / 256 % 256]
  {
  }
}
