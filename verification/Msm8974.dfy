/**
 The receive side of the MSM8974 UART driver.  The device delivers 32-bit words
 and, when the line goes stale, a snapshot of how many bytes the packet had; the
 driver hands the words out byte by byte and cuts the last one.
 */
module Msm8974 {
  import opened Serial

  /** What the device's registers would answer during one call. */
  datatype Line = Line(ready: bool, single: bool, stale: bool, word: u32, staleAfter: bool, total: u32)

  datatype Driver = Driver(rxWord: u32, queued: u32, read: u32, snap: u32)

  function Initial(rxWord: u32): Driver {
    Driver(rxWord, 0, 0, 0)
  }

  /** Reads only a full word, or what is there once the line is stale. */
  predicate Readable(l: Line) {
    l.ready && (l.single ==> l.stale)
  }

  function SnapAfter(d: Driver, l: Line): u32 {
    if d.snap == 0 && l.staleAfter then l.total else d.snap
  }

  /** Takes a word from the device; at the snapshot the packet ends and the word is cut. */
  function Refilled(d: Driver, l: Line): Driver {
    var read, snap := Wrap(d.read + RX_FIFO_WIDTH), SnapAfter(d, l);
    if snap != 0 && snap <= read then
      Driver(l.word, if Wrap(snap + RX_FIFO_WIDTH) > read then Wrap(Wrap(snap + RX_FIFO_WIDTH) - read) else 0, 0, 0)
    else Driver(l.word, RX_FIFO_WIDTH, read, snap)
  }

  function Polled(d: Driver, l: Line): Driver {
    if d.queued == 0 && Readable(l) then Refilled(d, l) else d
  }

  /** One `GetByte`: the byte handed out, if any. */
  function Got(d: Driver, l: Line): (Driver, seq<u8>) {
    var p := Polled(d, l);
    if p.queued != 0 then (p.(rxWord := p.rxWord / 256, queued := p.queued - 1), [p.rxWord % 256]) else (p, [])
  }

  // ---------------------------------------------------------------- packets

  function Max(a: int, b: int): int {
    if a < b then b else a
  }

  /** A finished packet: the words read for it and the snapshot that ended it. */
  datatype Packet = Packet(words: seq<u32>, snap: u32)

  predicate Ended(p: Packet) {
    p.words != [] && 0 < p.snap <= RX_FIFO_WIDTH * |p.words|
  }

  /** What a packet hands out: its first max(snap, 4 * (words - 1)) bytes. */
  function PacketBytes(p: Packet): (b: seq<u8>)
    requires Ended(p)
    ensures |b| == Max(p.snap, RX_FIFO_WIDTH * (|p.words| - 1))
  {
    AllBytes(p.words)[..Max(p.snap, RX_FIFO_WIDTH * (|p.words| - 1))]
  }

  function Flat(packets: seq<Packet>): seq<u8>
    requires forall p :: p in packets ==> Ended(p)
  {
    if packets == [] then [] else Flat(packets[..|packets| - 1]) + PacketBytes(packets[|packets| - 1])
  }

  /** A run so far: the driver, the bytes handed out, the packets ended and the words of the packet that is open. */
  datatype Run = Run(driver: Driver, out: seq<u8>, ended: seq<Packet>, open: seq<u32>)

  function Start(rxWord: u32): Run {
    Run(Initial(rxWord), [], [], [])
  }

  function Next(r: Run, l: Line): Run {
    var (d, b) := Got(r.driver, l);
    if r.driver.queued == 0 && Readable(l) then
      var words := r.open + [l.word];
      if Refilled(r.driver, l).read == 0 then
        Run(d, r.out + b, r.ended + [Packet(words, SnapAfter(r.driver, l))], [])
      else Run(d, r.out + b, r.ended, words)
    else r.(driver := d, out := r.out + b)
  }

  /** No packet grows so long that the 32-bit counters wrap. */
  predicate Unwrapped(r: Run, lines: seq<Line>)
    decreases |lines|
  {
    RX_FIFO_WIDTH * (|r.open| + 2) < TWO32 && (lines == [] || Unwrapped(Next(r, lines[0]), lines[1..]))
  }

  function After(r: Run, lines: seq<Line>): Run
    decreases |lines|
  {
    if lines == [] then r else After(Next(r, lines[0]), lines[1..])
  }

  /** Handed out and still queued are the ended packets and the open words, byte for byte. */
  predicate Accounted(r: Run) {
    var d := r.driver;
    && (forall p :: p in r.ended ==> Ended(p))
    && d.queued <= RX_FIFO_WIDTH
    && d.read == RX_FIFO_WIDTH * |r.open|
    && (d.snap == 0 || d.snap > d.read)
    && r.out + Bytes(d.rxWord)[..d.queued] == Flat(r.ended) + AllBytes(r.open)
  }

  lemma FlatSnoc(packets: seq<Packet>, p: Packet)
    requires Ended(p) && forall q :: q in packets ==> Ended(q)
    ensures forall q :: q in packets + [p] ==> Ended(q)
    ensures Flat(packets + [p]) == Flat(packets) + PacketBytes(p)
  {
    assert (packets + [p])[..|packets|] == packets;
  }

  lemma BytesShift(w: u32, n: nat)
    requires 0 < n <= RX_FIFO_WIDTH
    ensures Bytes(w)[..n] == [w % 256] + Bytes(w / 256)[..n - 1]
  {
  }

  /** The word just read is one more of the open packet. */
  lemma OpenAccounts(r: Run, l: Line)
    requires Accounted(r) && r.driver.queued == 0 && RX_FIFO_WIDTH * (|r.open| + 2) < TWO32
    requires Refilled(r.driver, l).read != 0
    ensures Accounted(Run(Refilled(r.driver, l), r.out, r.ended, r.open + [l.word]))
  {
    hide Bytes, AllBytes, Flat;
    AllBytesSnoc(r.open, l.word);
    assert Bytes(l.word)[..4] == Bytes(l.word);
    assert r.out == Flat(r.ended) + AllBytes(r.open);
  }

  /** The word just read is the last of its packet. */
  lemma EndAccounts(r: Run, l: Line)
    requires Accounted(r) && r.driver.queued == 0 && RX_FIFO_WIDTH * (|r.open| + 2) < TWO32
    requires Refilled(r.driver, l).read == 0
    ensures Accounted(Run(Refilled(r.driver, l), r.out, r.ended + [Packet(r.open + [l.word], SnapAfter(r.driver, l))],
      []))
  {
    hide Bytes, AllBytes, Flat, PacketBytes, SnapAfter;
    var d, snap := Refilled(r.driver, l), SnapAfter(r.driver, l);
    var p := Packet(r.open + [l.word], snap);
    FlatSnoc(r.ended, p);
    LastWordCut(r.open, l.word, snap);
    EmptyBytes();
    assert d.queued == Max(0, snap - RX_FIFO_WIDTH * |r.open|);
    assert r.out == Flat(r.ended) + AllBytes(r.open);
    assert Flat(r.ended) + (AllBytes(r.open) + Bytes(l.word)[..d.queued]) == r.out + Bytes(l.word)[..d.queued];
    assert Flat(r.ended + [p]) + [] == Flat(r.ended + [p]);
  }

  lemma EmptyBytes()
    ensures AllBytes([]) == []
  {
  }

  /** A packet is all its words but the last, and the front of the last up to the snapshot. */
  lemma LastWordCut(words: seq<u32>, w: u32, snap: u32)
    requires 0 < snap <= RX_FIFO_WIDTH * (|words| + 1)
    ensures PacketBytes(Packet(words + [w], snap)) == AllBytes(words)
      + Bytes(w)[..Max(0, snap - RX_FIFO_WIDTH * |words|)]
  {
    hide Bytes, AllBytes;
    AllBytesSnoc(words, w);
    CutAppend(AllBytes(words), Bytes(w), Max(0, snap - RX_FIFO_WIDTH * |words|));
  }

  lemma CutAppend(a: seq<u8>, b: seq<u8>, n: nat)
    requires n <= |b|
    ensures (a + b)[..|a| + n] == a + b[..n]
  {
  }

  lemma NextAccounts(r: Run, l: Line)
    requires Accounted(r) && RX_FIFO_WIDTH * (|r.open| + 2) < TWO32
    ensures Accounted(Next(r, l))
  {
    hide Bytes, AllBytes, Flat, Refilled;
    var p := Polled(r.driver, l);
    var middle := r;
    if r.driver.queued == 0 && Readable(l) {
      if p.read == 0 {
        EndAccounts(r, l);
        middle := Run(p, r.out, r.ended + [Packet(r.open + [l.word], SnapAfter(r.driver, l))], []);
      } else {
        OpenAccounts(r, l);
        middle := Run(p, r.out, r.ended, r.open + [l.word]);
      }
    }
    assert Accounted(middle) && middle.driver == p;
    if p.queued != 0 {
      BytesShift(p.rxWord, p.queued);
      assert r.out + [p.rxWord % 256] + Bytes(p.rxWord / 256)[..p.queued - 1] == r.out + Bytes(p.rxWord)[..p.queued];
    } else {
      assert r.out + [] == r.out;
    }
  }

  lemma {:induction false} RunAccounts(r: Run, lines: seq<Line>)
    requires Accounted(r) && Unwrapped(r, lines)
    ensures Accounted(After(r, lines))
    decreases |lines|
  {
    hide Accounted, Next;
    if lines != [] {
      NextAccounts(r, lines[0]);
      RunAccounts(Next(r, lines[0]), lines[1..]);
    }
  }

  /**
   Over any calls in which no packet is too long for the counters: what was handed
   out, with the bytes still queued, is packet after packet the words read, lowest
   byte first, each packet cut to max(snap, 4 * (words - 1)) bytes.
   */
  lemma WholeRun(rxWord: u32, lines: seq<Line>)
    requires Unwrapped(Start(rxWord), lines)
    ensures
      var r := After(Start(rxWord), lines);
      && r.driver.queued <= RX_FIFO_WIDTH
      && (forall p :: p in r.ended ==> Ended(p))
      && r.out + Bytes(r.driver.rxWord)[..r.driver.queued] == Flat(r.ended) + AllBytes(r.open)
  {
    assert Accounted(Start(rxWord));
    RunAccounts(Start(rxWord), lines);
  }

  /** A packet hands out exactly its snapshot when, and only when, that lies in its last word. */
  lemma ExactIffInLastWord(p: Packet)
    requires Ended(p)
    ensures |PacketBytes(p)| == p.snap <==> p.snap >= RX_FIFO_WIDTH * (|p.words| - 1)
    ensures |PacketBytes(p)| >= p.snap
  {
  }

  // ---------------------------------------------------------------- the driver as it is written

  class Receiver {
    var rxWord: u32
    var queued: u32
    var read: u32
    var snap: u32

    ghost function State(): Driver
      reads this
    {
      Driver(rxWord, queued, read, snap)
    }

    constructor (anything: u32)
      ensures State() == Initial(anything)
    {
      rxWord, queued, read, snap := anything, 0, 0, 0;
    }

    method GetByte(attached: bool, line: Line) returns (status: Status, byte: u8)
      modifies this
      ensures !attached ==> State() == old(State()) && status == NotReady
      ensures attached ==>
                var (d, b) := Got(old(State()), line);
                State() == d && status == (if b == [] then NoData else Success) && (b != [] ==> b == [byte])
    {
      byte := 0;
      if !attached {
        return NotReady, 0;
      }
      if queued == 0 {
        var limit := 1;
        while limit != 0
          invariant 0 <= limit <= 1
          invariant limit == 1 ==> State() == old(State())
          invariant limit == 0 ==> !Readable(line) && State() == old(State())
        {
          limit := limit - 1;
          if !line.ready {
            continue;
          }
          if line.single && !line.stale {
            continue;
          }
          rxWord, queued, read := line.word, RX_FIFO_WIDTH, Wrap(read + RX_FIFO_WIDTH);
          if snap == 0 && line.staleAfter {
            snap := line.total;
          }
          if snap != 0 && snap <= read {
            var end := Wrap(snap + RX_FIFO_WIDTH);
            queued := if end > read then end - read else 0;
            read, snap := 0, 0;
          }
          break;
        }
      }
      if queued != 0 {
        byte := rxWord % 256;
        rxWord, queued := rxWord / 256, queued - 1;
        return Success, byte;
      }
      status := NoData;
    }
  }
}
