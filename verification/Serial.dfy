/**
 What the UART drivers share: 32-bit counters, the bytes of a FIFO word, and the
 status of a call.
 */
module Serial {
  const RX_FIFO_WIDTH: nat := 4
  const TWO32: nat := 0x1_0000_0000

  type u32 = x: nat | x < TWO32
  type u8 = x: nat | x < 256

  datatype Status = Success | NoData | Error | NotReady

  /** The value a 32-bit sum or difference leaves. */
  function Wrap(n: int): u32
    requires 0 <= n + TWO32 < 3 * TWO32
  {
    if n < 0 then n + TWO32 else if n < TWO32 then n else n - TWO32
  }

  /** The bytes of a word, lowest first. */
  function Bytes(w: u32): (b: seq<u8>)
    ensures |b| == RX_FIFO_WIDTH
  {
    [w % 256, w / 256 % 256, w / 256 / 256 % 256, w / 256 / 256 / 256 % 256]
  }

  function AllBytes(words: seq<u32>): (b: seq<u8>)
    ensures |b| == RX_FIFO_WIDTH * |words|
  {
    if words == [] then [] else AllBytes(words[..|words| - 1]) + Bytes(words[|words| - 1])
  }

  lemma AllBytesSnoc(words: seq<u32>, w: u32)
    ensures AllBytes(words + [w]) == AllBytes(words) + Bytes(w)
  {
    assert (words + [w])[..|words|] == words;
  }
}
