/** The counter words of the default flavour: what the phase bit and the nesting count of
    module GracePeriod are in one unsigned long.  The code keeps the count in the low
    half and the phase just above it. */
module ReaderWord {
  import opened GracePeriod

  const COUNT: nat := 1

  /** `RCU_GP_CTR_PHASE`, half-way up a 64-bit word; NEST_MASK is one less. */
  const PHASE: nat := 0x1_0000_0000

  /** `v & RCU_GP_CTR_NEST_MASK`. */
  function Nest(v: nat): nat { v % PHASE }

  /** `v & RCU_GP_CTR_PHASE`, as a bit. */
  function PhaseBit(v: nat): bool { v / PHASE % 2 == 1 }

  /** `rcu_reader_state`: the exclusive or has the phase bit clear where both agree. */
  function ReaderState(v: nat, gp: nat): Class {
    if Nest(v) == 0 then Inactive
    else if PhaseBit(v) == PhaseBit(gp) then ActiveCurrent
    else ActiveOld
  }

  /** `_rcu_read_lock_update`: the word it stores. */
  function LockUpdate(tmp: nat, gp: nat): nat { if Nest(tmp) == 0 then gp else tmp + COUNT }

  /** `_rcu_read_unlock_update_and_wakeup`: the word it stores, and whether it goes on to
      wake the writer. */
  function UnlockUpdate(tmp: nat): (int, bool) { (tmp - COUNT, Nest(tmp) == COUNT) }

  /** `rcu_gp.ctr ^ RCU_GP_CTR_PHASE`. */
  function Flip(gp: nat): nat { if PhaseBit(gp) then gp - PHASE else gp + PHASE }

  /** The word of a reader's counter, and of the global counter. */
  function Word(c: Ctr): nat { c.nest + if c.phase then PHASE else 0 }

  function GpWord(phase: bool): nat { Word(Ctr(phase, COUNT)) }

  /** The fields come back out of the word. */
  lemma Fields(c: Ctr)
    requires c.nest <= NEST_MASK
    ensures Nest(Word(c)) == c.nest && PhaseBit(Word(c)) == c.phase && Word(c) < 0x1_0000_0000_0000_0000
  {
  }

  lemma ClassifiesWords(c: Ctr, gp: bool)
    requires c.nest <= NEST_MASK
    ensures ReaderState(Word(c), GpWord(gp)) == Classify(c, gp)
  {
    Fields(c);
    Fields(Ctr(gp, COUNT));
  }

  /** Lock and unlock on words are the machine's steps on counters, and nesting up to
      the mask never touches the phase. */
  lemma LocksWords(c: Ctr, gp: bool)
    requires c.nest < NEST_MASK
    ensures LockUpdate(Word(c), GpWord(gp)) == Word(if c.nest == 0 then Ctr(gp, 1) else c.(nest := c.nest + 1))
  {
    Fields(c);
  }

  lemma UnlocksWords(c: Ctr)
    requires 0 < c.nest <= NEST_MASK
    ensures UnlockUpdate(Word(c)) == (Word(c.(nest := c.nest - 1)), c.nest == 1)
  {
    Fields(c);
  }

  lemma FlipsWords(gp: bool)
    ensures Flip(GpWord(gp)) == GpWord(!gp)
  {
    Fields(Ctr(gp, COUNT));
  }

  /** Beyond the mask the count runs into the phase, which is why the lock asserts it
      has not got there. */
  lemma OverflowFlipsPhase(phase: bool)
    ensures Nest(Word(Ctr(phase, NEST_MASK)) + COUNT) == 0 && PhaseBit(Word(Ctr(phase, NEST_MASK)) + COUNT) != phase
  {
    Fields(Ctr(phase, NEST_MASK));
  }
}
