/**
 The general-purpose registers a script can name, the stack pointer aside, and
 their 64, 32, 16 and 8 bit views.
 */
module Registers {
  import opened Words

  /** rax, rcx, rdx, rbx, rbp, rsi, rdi and r8 to r15. */
  type Base = i: int | 0 <= i < 15

  datatype View = Full | Low32 | Low16 | High8 | Low8
  datatype GuestReg = GuestReg(base: Base, view: View)
  type RegFile = r: seq<bv64> | |r| == 15 witness seq(15, _ => 0)

  /** A view reads its bits; the high byte comes down to the low end. */
  function Extract(x: bv64, v: View): bv64 {
    match v
    case Full => x
    case Low32 => x & 0xffff_ffff
    case Low16 => x & 0xffff
    case High8 => (x & 0xff00) >> 8
    case Low8 => x & 0xff
  }

  /** A view writes its bits and keeps the others, the upper half of a 32-bit write included. */
  function Merge(x: bv64, v: View, value: bv64): bv64 {
    match v
    case Full => value
    case Low32 => (x & 0xffff_ffff_0000_0000) | (value & 0xffff_ffff)
    case Low16 => (x & 0xffff_ffff_ffff_0000) | (value & 0xffff)
    case High8 => (x & 0xffff_ffff_ffff_00ff) | ((value << 8) & 0xff00)
    case Low8 => (x & 0xffff_ffff_ffff_ff00) | (value & 0xff)
  }

  function Get(regs: RegFile, r: GuestReg): bv64 {
    Extract(regs[r.base], r.view)
  }

  function Set(regs: RegFile, r: GuestReg, v: bv64): RegFile {
    regs[r.base := Merge(regs[r.base], r.view, v)]
  }

  function ReadRegister(regs: RegFile, r: GuestReg): u64 {
    Get(regs, r) as int
  }

  function WriteRegister(regs: RegFile, r: GuestReg, v: u64): RegFile {
    Set(regs, r, v as bv64)
  }
}
