/** The data model of a toy x86-64 assembly intermediate representation: the
    physical registers with their calling-convention classes, operands, and
    instruction shapes generic over the operand representation. */
module X86 {
  import opened Seqs

  const MIN_I64: int := -0x8000_0000_0000_0000
  const MAX_I64: int := 0x7fff_ffff_ffff_ffff
  const MIN_I8: int := -0x80
  const MAX_I8: int := 0x7f

  /** A signed 64-bit integer (Rust `i64`). */
  type Int64 = x: int | MIN_I64 <= x <= MAX_I64

  /** A signed 8-bit integer (Rust `i8`). */
  type Int8 = x: int | MIN_I8 <= x <= MAX_I8

  /** 2 raised to the power `n`. */
  function Pow2(n: nat): (p: nat)
    ensures p >= 1
  {
    if n == 0 then 1 else 2 * Pow2(n - 1)
  }

  /** Powers of two multiply by adding exponents. */
  lemma {:induction false} Pow2Add(a: nat, b: nat)
    ensures Pow2(a + b) == Pow2(a) * Pow2(b)
  {
    if a > 0 {
      Pow2Add(a - 1, b);
    }
  }

  /** A symbolic variable; its text is an opaque token compared by equality. */
  datatype Name = Name(text: string)

  /** A jump or call target. */
  datatype Label = Label(text: string)

  /** The declared number of arguments of a call. */
  datatype Arity = Arity(count: Int8)

  /** The sixteen general-purpose registers, in declaration order. */
  datatype Register =
    | RSP | RBP | RAX | RBX | RCX | RDX | RSI | RDI
    | R8 | R9 | R10 | R11 | R12 | R13 | R14 | R15

  /** Every register, in the order the enumeration declares them; each one
      occurs exactly once. */
  function AllRegisters(): (rs: seq<Register>)
    ensures |rs| == 16 && Distinct(rs)
  {
    [RSP, RBP, RAX, RBX, RCX, RDX, RSI, RDI, R8, R9, R10, R11, R12, R13, R14, R15]
  }

  /** The enumeration is closed: every register value is one of the sixteen. */
  lemma AllRegistersComplete()
    ensures forall r: Register :: r in AllRegisters()
  {
    forall r: Register ensures r in AllRegisters() {
      match r
      case RSP => case RBP => case RAX => case RBX =>
      case RCX => case RDX => case RSI => case RDI =>
      case R8 => case R9 => case R10 => case R11 =>
      case R12 => case R13 => case R14 => case R15 =>
    }
  }

  /** Registers whose value a call may destroy. */
  function CallerSaved(): (rs: seq<Register>)
    ensures |rs| == 9 && Distinct(rs)
  {
    [RAX, RCX, RDX, RSI, RDI, R8, R9, R10, R11]
  }

  /** Registers a call preserves. */
  function CalleeSaved(): (rs: seq<Register>)
    ensures |rs| == 7 && Distinct(rs)
  {
    [RSP, RBP, RBX, R12, R13, R14, R15]
  }

  /** Registers carrying the first integer or pointer arguments of a call,
      first argument first. */
  function ArgumentPassing(): (rs: seq<Register>)
    ensures |rs| == 6 && Distinct(rs)
  {
    [RDI, RSI, RDX, RCX, R8, R9]
  }

  /** A physical register, a memory cell at a register plus a byte offset, a
      symbolic variable, or an immediate constant. */
  datatype Operand =
    | Reg(reg: Register)
    | Mem(base: Register, offset: Int64)
    | Var(name: Name)
    | Imm(value: Int64)

  /** Instruction shapes, generic over the operand representation `A`. */
  datatype InstrF<A> =
    | AddQ(src: A, dst: A)
    | SubQ(src: A, dst: A)
    | NegQ(dst: A)
    | MovQ(src: A, dst: A)
    | PushQ(operand: A)
    | PopQ(operand: A)
    | CallQ(target: Label, arity: Arity)
    | Jmp(target: Label)
    | Syscall
    | RetQ

  /** Memory offsets and immediates range over exactly the two's-complement
      values of 64 bits. */
  lemma OperandRanges(o: Operand)
    ensures MIN_I64 == 0 - Pow2(63) && MAX_I64 == Pow2(63) - 1
    ensures o.Mem? ==> 0 - Pow2(63) <= o.offset < Pow2(63)
    ensures o.Imm? ==> 0 - Pow2(63) <= o.value < Pow2(63)
  {
    assert Pow2(15) == 0x8000;
    Pow2Add(15, 15);
    Pow2Add(30, 30);
    Pow2Add(3, 60);
  }

  /** An arity ranges over exactly the two's-complement values of 8 bits,
      negative ones included. */
  lemma ArityRange(a: Arity)
    ensures MIN_I8 == 0 - Pow2(7) && MAX_I8 == Pow2(7) - 1
    ensures 0 - Pow2(7) <= a.count < Pow2(7)
  {
  }

  /** Instructions over the operands above. */
  type Instr = InstrF<Operand>
}
