# x86-64 register catalogue and instruction model

This project models the data model of a toy x86-64 assembly intermediate
representation. A register allocator works on this representation. The model
covers four parts:

- the closed set of sixteen general-purpose registers;
- the three calling-convention register lists: caller-saved, callee-saved and
  argument-passing;
- operands: a register, a memory cell at a base register plus a signed 64-bit
  byte offset, a symbolic variable, or a signed 64-bit immediate;
- instruction shapes, generic over the operand representation (`InstrF<A>`),
  with `Instr` as the shape over operands.

The three lists are checked against an independent reference. That reference
restates the register usage rules of the System V AMD64 ABI one register at a
time. It covers section 3.2.1, "Registers and the Stack Frame", with the
"preserved across function calls" column of its register usage table, and
section 3.2.3, "Parameter Passing", with the order of integer-class argument
registers.

Files:

- `x86.dfy`, module `X86`: the source file's types and constant lists.
- `sysv.dfy`, module `SysVAbi`: the ABI reference table, and lemmas tying
  the lists to it.
- `seqs.dfy`, module `Seqs`: occurrence counting and distinctness over
  sequences.
- `wrappers.dfy`, module `Wrappers`: an `Option` type.

Fixed-width integers are subset types of `int`. `Int64` is
-2^63..2^63-1 and `Int8` is -128..127, so every `Mem` offset, `Imm` value
and `Arity` is in range by construction. `Name` and `Label` wrap a `string`
that is compared only by equality.

## Model

| member | source | states |
|---|---|---|
| X86.AllRegisters | src/x86.rs:7-24 | the enumeration in declaration order has 16 registers, none repeated |
| X86.AllRegistersComplete | src/x86.rs:7-24 | the enumeration is closed: every register value is in the catalogue |
| X86.CallerSaved | src/x86.rs:27-37 | the caller-saved list has 9 registers, none repeated |
| X86.CalleeSaved | src/x86.rs:39-47 | the callee-saved list has 7 registers, none repeated |
| X86.ArgumentPassing | src/x86.rs:49-56 | the argument-passing list has 6 registers, none repeated |
| X86.OperandRanges | src/x86.rs:59-64 | `Mem` offsets and `Imm` values are confined to -2^63..2^63-1, the full signed 64-bit range |
| X86.ArityRange | src/x86.rs:5 | an arity is confined to -2^7..2^7-1, the full signed 8-bit range, so negative values are included |
| SysVAbi.CallerSavedMatchesAbi | src/x86.rs:27-37 | a register is in the caller-saved list exactly when the ABI does not preserve it across calls |
| SysVAbi.CalleeSavedMatchesAbi | src/x86.rs:39-47 | a register is in the callee-saved list exactly when the ABI preserves it across calls |
| SysVAbi.SaveClassesPartition | src/x86.rs:27-47 | for every register, its occurrences in the two save classes add up to exactly one, so it is caller-saved if and only if it is not callee-saved |
| SysVAbi.SaveClassesPermuteRegisters | src/x86.rs:7-47 | caller-saved followed by callee-saved is a permutation of the whole enumeration, so the two lists are disjoint and together cover it |
| SysVAbi.ArgumentPassingMatchesAbi | src/x86.rs:49-56 | position k of the argument list holds exactly the ABI's register for integer argument k (RDI, RSI, RDX, RCX, R8, R9), and no other register passes an integer argument |
| SysVAbi.ArgumentsAreCallerSaved | src/x86.rs:27-56 | every argument-passing register is caller-saved and not callee-saved |
| SysVAbi.StackRegistersPreserved | src/x86.rs:39-56 | RSP and RBP are callee-saved, are preserved under the ABI, and never pass an argument |

## Left out

- Use/def extraction, the "can hold a live value" operand predicate, and the
  backward liveness scan: `src/x86.rs` does not define them. They are not part
  of this model.
- Instruction semantics (`PushQ`, `PopQ`, `CallQ`, `Jmp`, `Syscall`, `RetQ`):
  the source declares only their shapes.
- The text inside `Name` and `Label`: it is kept as a `string` that is
  compared by equality, and no operation reads it.
- Rust representation details: lists as `&[Register]` slices become
  `seq<Register>`; memory layout; and the absence of derived
  equality and hashing. Dafny gives every datatype structural equality, and
  the source derives none.
- The argument-passing list is a subset of the caller-saved list but not a
  subsequence of it. RDI comes before RCX in the first and after it in the
  second. So no order-preserving inclusion is stated.
- The source does not bound an arity by the number of argument registers.
  `Arity` is any `i8`, including negative values, and the model keeps that.
