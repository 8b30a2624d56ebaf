/** The register usage rules of the System V AMD64 ABI (section 3.2.1,
    "Registers and the Stack Frame", its register usage table, and section
    3.2.3, "Parameter Passing"), written register by register as a reference
    against which the three register lists of the x86 model are checked. */
module SysVAbi {
  import opened Wrappers
  import opened Seqs
  import opened X86

  /** The "preserved across function calls" column of the ABI's register
      usage table. */
  predicate PreservedAcrossCalls(r: Register) {
    match r
    case RSP => true   // stack pointer
    case RBP => true   // callee-saved; optionally the frame pointer
    case RBX => true   // callee-saved
    case R12 => true
    case R13 => true
    case R14 => true
    case R15 => true   // callee-saved; optionally the GOT base pointer
    case RAX => false  // temporary; first return register
    case RCX => false  // fourth integer argument
    case RDX => false  // third integer argument; second return register
    case RSI => false  // second integer argument
    case RDI => false  // first integer argument
    case R8 => false   // fifth integer argument
    case R9 => false   // sixth integer argument
    case R10 => false  // temporary; static chain pointer
    case R11 => false  // temporary
  }

  /** The zero-based position of the integer-class argument that the ABI
      passes in `r`, if any. */
  function IntegerArgumentPosition(r: Register): Option<nat> {
    match r
    case RDI => Some(0)
    case RSI => Some(1)
    case RDX => Some(2)
    case RCX => Some(3)
    case R8 => Some(4)
    case R9 => Some(5)
    case _ => None
  }

  /** The caller-saved list holds exactly the registers the ABI does not
      preserve across a call. */
  lemma CallerSavedMatchesAbi(r: Register)
    ensures r in CallerSaved() <==> !PreservedAcrossCalls(r)
  {
  }

  /** The callee-saved list holds exactly the registers the ABI preserves
      across a call. */
  lemma CalleeSavedMatchesAbi(r: Register)
    ensures r in CalleeSaved() <==> PreservedAcrossCalls(r)
  {
  }

  /** Every register lies in exactly one of the two save classes, once: the
      classes are disjoint and together cover the enumeration. */
  lemma SaveClassesPartition()
    ensures forall r: Register :: Count(CallerSaved(), r) + Count(CalleeSaved(), r) == 1
    ensures forall r: Register :: r in CallerSaved() <==> r !in CalleeSaved()
  {
    forall r: Register
      ensures Count(CallerSaved(), r) + Count(CalleeSaved(), r) == 1
      ensures r in CallerSaved() <==> r !in CalleeSaved()
    {
      CallerSavedMatchesAbi(r);
      CalleeSavedMatchesAbi(r);
      CountPositive(CallerSaved(), r);
      CountPositive(CalleeSaved(), r);
      DistinctCountAtMostOne(CallerSaved(), r);
      DistinctCountAtMostOne(CalleeSaved(), r);
    }
  }

  /** The two save classes laid end to end are a rearrangement of the whole
      register enumeration. */
  lemma SaveClassesPermuteRegisters()
    ensures multiset(CallerSaved() + CalleeSaved()) == multiset(AllRegisters())
  {
    var classes, all := CallerSaved() + CalleeSaved(), AllRegisters();
    SaveClassesPartition();
    AllRegistersComplete();
    forall r: Register ensures Count(classes, r) == Count(all, r) {
      CountConcat(CallerSaved(), CalleeSaved(), r);
      CountPositive(all, r);
      DistinctCountAtMostOne(all, r);
    }
    SameCountsSameMultiset(classes, all);
  }

  /** The argument list is the ABI's integer argument order: position `k` of
      the list holds the register of argument `k`, and no other register
      passes an integer argument. */
  lemma ArgumentPassingMatchesAbi(r: Register, k: nat)
    ensures IntegerArgumentPosition(r) == Some(k)
        <==> k < |ArgumentPassing()| && ArgumentPassing()[k] == r
  {
  }

  /** Every argument register is caller-saved and none is callee-saved. */
  lemma ArgumentsAreCallerSaved(r: Register)
    requires r in ArgumentPassing()
    ensures r in CallerSaved() && r !in CalleeSaved()
  {
  }

  /** The stack and frame pointers are callee-saved and never carry an
      argument. */
  lemma StackRegistersPreserved()
    ensures RSP in CalleeSaved() && RBP in CalleeSaved()
    ensures RSP !in ArgumentPassing() && RBP !in ArgumentPassing()
    ensures PreservedAcrossCalls(RSP) && PreservedAcrossCalls(RBP)
  {
  }
}
