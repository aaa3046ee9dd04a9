/** 64-bit machine words and the arithmetic the script machine performs on them. */
module Words {

  const TWO64: int := 0x1_0000_0000_0000_0000

  /** An unsigned 64-bit value, kept as a number so that code addresses need no conversion. */
  type u64 = x: int | 0 <= x < TWO64

  /** The jump operand that is written before the real target is known. */
  const PLACEHOLDER: u64 := 0xffff_ffff_ffff_ffff

  datatype Option<+T> = None | Some(value: T)

  datatype UnaryOp = Neg | Not

  datatype BinaryOp =
    | Or | Xor | And
    | Asr | Asl
    | Add | Sub | Mul | Div | Mod
    | Gt | Lt | Egt | Elt | Equal | Neq

  /** Truncation of a number to a machine word. */
  function AsWord(n: nat): (w: u64)
    ensures n < TWO64 ==> w == n
  {
    if n < TWO64 then n else n % TWO64
  }

  function Pow2(n: nat): (p: nat)
    ensures p > 0
  {
    if n == 0 then 1 else 2 * Pow2(n - 1)
  }

  lemma {:induction false} Pow2Sum(a: nat, b: nat)
    ensures Pow2(a + b) == Pow2(a) * Pow2(b)
  {
    if a != 0 {
      Pow2Sum(a - 1, b);
    }
  }

  lemma Pow2Of2()
    ensures Pow2(2) == 4
  {
    assert Pow2(1) == 2;
  }

  lemma Pow2Of64()
    ensures Pow2(64) == TWO64
  {
    hide Pow2;
    Pow2Of2();
    Pow2Sum(2, 2);
    Pow2Sum(4, 4);
    Pow2Sum(8, 8);
    Pow2Sum(16, 16);
    Pow2Sum(32, 32);
  }

  function Flag(b: bool): u64 {
    if b then 1 else 0
  }

  function Bit(op: BinaryOp, x: bool, y: bool): bool {
    match op
    case Or => x || y
    case Xor => x != y
    case _ => x && y
  }

  /** The bitwise operator `op` on the lowest `n` bits of `a` and `b`. */
  function Bitwise(op: BinaryOp, a: nat, b: nat, n: nat): (v: nat)
    ensures v < Pow2(n)
  {
    if n == 0 then 0
    else (if Bit(op, a % 2 == 1, b % 2 == 1) then 1 else 0) + 2 * Bitwise(op, a / 2, b / 2, n - 1)
  }

  /** Bit `i` of the result is the operator on bits `i` of the operands. */
  lemma {:induction false} BitwiseBits(op: BinaryOp, a: nat, b: nat, n: nat, i: nat)
    requires i < n
    ensures BitOf(Bitwise(op, a, b, n), i) == Bit(op, BitOf(a, i), BitOf(b, i))
    decreases n
  {
    if i != 0 {
      BitwiseBits(op, a / 2, b / 2, n - 1, i - 1);
    }
  }

  predicate BitOf(a: nat, i: nat) {
    if i == 0 then a % 2 == 1 else BitOf(a / 2, i - 1)
  }

  function Bitwise64(op: BinaryOp, a: u64, b: u64): u64 {
    Pow2Of64();
    Bitwise(op, a, b, 64)
  }

  /** The value of a unary operator: negation is modulo 2^64, `~` flips every bit. */
  function UnaryValue(op: UnaryOp, a: u64): u64 {
    match op
    case Neg => (TWO64 - a) % TWO64
    case Not => TWO64 - 1 - a
  }

  /**
   The value of `a op b`; None when the machine reports an error, which happens
   exactly for a zero divisor.  Shift counts are taken modulo 64, as the x86
   shift instructions do.
   */
  function BinaryValue(op: BinaryOp, a: u64, b: u64): (v: Option<u64>)
    ensures v == None <==> (op == Div || op == Mod) && b == 0
  {
    match op
    case Or => Some(Bitwise64(Or, a, b))
    case Xor => Some(Bitwise64(Xor, a, b))
    case And => Some(Bitwise64(And, a, b))
    case Asr => Some((a / Pow2(b % 64)) % TWO64)
    case Asl => Some((a * Pow2(b % 64)) % TWO64)
    case Add => Some((a + b) % TWO64)
    case Sub => Some((a - b) % TWO64)
    case Mul => Some((a * b) % TWO64)
    case Div => if b == 0 then None else Some((a / b) % TWO64)
    case Mod => if b == 0 then None else Some((a % b) % TWO64)
    case Gt => Some(Flag(a > b))
    case Lt => Some(Flag(a < b))
    case Egt => Some(Flag(a >= b))
    case Elt => Some(Flag(a <= b))
    case Equal => Some(Flag(a == b))
    case Neq => Some(Flag(a != b))
  }
}
