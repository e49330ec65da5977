/**
 * Properties that relate several operations of the model: the stack
 * primitives and the instructions that use them, worked arithmetic
 * examples, the branch conditions, the double operand fetch of the
 * read-modify-write templates, and single steps through the opcode table.
 */
module Properties {
  import opened Bits
  import opened Flags
  import Bus
  import opened Machine
  import opened Instructions
  import opened OpMap

  /** The stack slot that SP designates is backed by a device. */
  predicate StackMapped(s: State, sp: bv8)
  {
    Bus.WellFormed(s.bus) && Bus.Mapped(s.bus, StackSlot(sp))
  }

  // ------------------------------------------------------------------
  // Stack
  // ------------------------------------------------------------------

  /** `pop` after `push` returns the pushed byte, when the slot is backed by a device. */
  lemma PushThenPop(s: State, value: bv8)
    requires StackMapped(s, s.sp)
    ensures Pop(Push(s, value)) == value
  {
    var t := Push(s, value);
    assert StackSlot(t.sp + 1) == StackSlot(s.sp);
    Bus.ReadAfterWrite(s.bus, StackSlot(s.sp), value);
  }

  /** A push keeps every backed slot backed, so a later push reads back too. */
  lemma PushKeepsMapped(s: State, value: bv8, sp: bv8)
    requires StackMapped(s, sp)
    ensures StackMapped(Push(s, value), sp)
  {
    Bus.MappedAfterWrite(s.bus, StackSlot(s.sp), value, StackSlot(sp));
  }

  /** `pop` never moves SP, so none of the pulling instructions does. */
  lemma PullsKeepSp(s: State)
    ensures Pla(s).sp == s.sp && Plp(s).sp == s.sp
    ensures Rts(s).sp == s.sp && Rti(s).sp == s.sp
  {
  }

  /** `pop` on any state whose bus and SP are those after a push returns the pushed byte. */
  lemma PopAfterPush(t: State, u: State, value: bv8)
    requires StackMapped(u, u.sp)
    requires t.bus == Push(u, value).bus && t.sp == u.sp - 1
    ensures Pop(t) == value
  {
    PushThenPop(u, value);
    assert Pop(t) == Pop(Push(u, value));
  }

  /**
   * `JSR abs16` then `RTS`: the stack holds the low nibble and then the
   * high byte of the return address, and `RTS` reads the high byte twice,
   * so PC becomes that byte times 0x101; SP stays two below where it was.
   */
  lemma JsrThenRts(s: State)
    requires StackMapped(s, s.sp - 1)
    ensures var ret := Next(s.pc, 2); var t := Rts(Jsr(s, Abs16));
      && t.pc == 0x101 * (ret / 0x100)
      && t.sp == s.sp - 2
  {
    var ret := Next(s.pc, 2);
    var u1 := Push(s, LowNibble(ret));
    PushKeepsMapped(s, LowNibble(ret), s.sp - 1);
    var j := Jsr(s, Abs16);
    assert ReadWord(s, Abs16).state == s;
    assert j.bus == Push(u1, HighByte(ret)).bus && j.sp == u1.sp - 1;
    PopAfterPush(j, u1, HighByte(ret));
  }

  /**
   * `BRK` then `RTI`: the status byte is the last byte pushed, so `RTI`
   * restores it (B as it was before `BRK`), and as it pops the same slot
   * again for both halves of PC, PC becomes that byte times 0x101.
   */
  lemma BrkThenRti(s: State)
    requires StackMapped(s, s.sp - 2)
    ensures var t := Rti(Brk(s));
      && t.flags == s.flags
      && t.pc == 0x101 * s.flags as int
      && t.sp == s.sp - 3
  {
    var ret := Next(s.pc, 2);
    var u1 := Push(s, LowNibble(ret));
    var u2 := Push(u1, HighByte(ret));
    PushKeepsMapped(s, LowNibble(ret), s.sp - 2);
    PushKeepsMapped(u1, HighByte(ret), s.sp - 2);
    BrkEffect(s);
    PopAfterPush(Brk(s), u2, s.flags);
  }

  // ------------------------------------------------------------------
  // Arithmetic
  // ------------------------------------------------------------------

  /** 0x50 + 0x50 with C clear: A = 0xA0 with V and N set, C and Z clear. */
  lemma AdcOverflowExample(s: State)
    requires s.a == 0x50 && Peek(s, s.pc) == 0x50 && !TestFlag(s.flags, C)
    ensures var t := Adc(s, Imm);
      && t.a == 0xA0
      && TestFlag(t.flags, V) && TestFlag(t.flags, N)
      && !TestFlag(t.flags, C) && !TestFlag(t.flags, Z)
  {
    AdcEffect(s, Imm);
  }

  /** 0x50 + 0xB0 with C clear: A = 0 with C and Z set, V and N clear. */
  lemma AdcCarryExample(s: State)
    requires s.a == 0x50 && Peek(s, s.pc) == 0xB0 && !TestFlag(s.flags, C)
    ensures var t := Adc(s, Imm);
      && t.a == 0
      && TestFlag(t.flags, C) && TestFlag(t.flags, Z)
      && !TestFlag(t.flags, V) && !TestFlag(t.flags, N)
  {
    AdcEffect(s, Imm);
  }

  /**
   * `SBC` as written leaves only 0 or 1 in A: 0x50 - 0x10 with C set, which
   * the 6502 computes as 0x40, gives 1 here.
   */
  lemma SbcExample(s: State)
    requires s.a == 0x50 && Peek(s, s.pc) == 0x10 && TestFlag(s.flags, C)
    ensures Sbc(s, Imm).a == 1
    ensures !TestFlag(Sbc(s, Imm).flags, Z)
  {
    SbcEffect(s, Imm);
  }

  /** Whatever the operand, `SBC` as written leaves 0 or 1 in A and clears N. */
  lemma SbcBoolean(s: State, r: Operand)
    ensures Sbc(s, r).a <= 1 && !TestFlag(Sbc(s, r).flags, N)
  {
    SbcEffect(s, r);
  }

  // ------------------------------------------------------------------
  // Branches
  // ------------------------------------------------------------------

  /**
   * Each branch through `rel` leaves PC at the `rel` target when its flag
   * test holds and just past the offset byte otherwise; nothing else
   * changes. `BEQ` never branches.
   */
  lemma BranchConditions(s: State)
    ensures var target := Wrap16(s.pc + 1 + Signed(Peek(s, s.pc))); var next := Next(s.pc, 1);
      && Bpl(s, Rel) == s.(pc := if !TestFlag(s.flags, N) then target else next)
      && Bmi(s, Rel) == s.(pc := if TestFlag(s.flags, N) then target else next)
      && Bvc(s, Rel) == s.(pc := if !TestFlag(s.flags, V) then target else next)
      && Bvs(s, Rel) == s.(pc := if TestFlag(s.flags, V) then target else next)
      && Bcc(s, Rel) == s.(pc := if !TestFlag(s.flags, C) then target else next)
      && Bcs(s, Rel) == s.(pc := if TestFlag(s.flags, C) then target else next)
      && Bne(s, Rel) == s.(pc := if !TestFlag(s.flags, Z) then target else next)
      && Beq(s, Rel) == s.(pc := next)
  {
    BranchTaken(s, !TestFlag(s.flags, N));
    BranchTaken(s, TestFlag(s.flags, N));
    BranchTaken(s, !TestFlag(s.flags, V));
    BranchTaken(s, TestFlag(s.flags, V));
    BranchTaken(s, !TestFlag(s.flags, C));
    BranchTaken(s, TestFlag(s.flags, C));
    BranchTaken(s, !TestFlag(s.flags, Z));
    BranchTaken(s, false);
  }

  /** The shared branch body through `rel`, as a state update. */
  lemma BranchTaken(s: State, taken: bool)
    ensures BranchIf(s, Rel, taken)
         == s.(pc := if taken then Wrap16(s.pc + 1 + Signed(Peek(s, s.pc))) else Next(s.pc, 1))
  {
  }

  // ------------------------------------------------------------------
  // Shifts, rotates and read-modify-write
  // ------------------------------------------------------------------

  /** The two rotations undo each other. */
  lemma RotationsInverse(m: bv8)
    ensures RotateRight(RotateLeft(m)) == m && RotateLeft(RotateRight(m)) == m
  {
  }

  /** `ROL A` then `ROR A` gives back A. */
  lemma RolThenRor(s: State)
    ensures Ror(Rol(s, Acc, Acc), Acc, Acc).a == s.a
  {
    RotationsInverse(s.a);
  }

  /**
   * A read-modify-write template fetches its operand twice: `INC zpg`
   * reads at the zero-page address in the byte after the opcode, writes
   * the incremented value at the address in the byte after that, and
   * moves PC by two.
   */
  lemma IncFetchesTwice(s: State)
    ensures var t := Inc(s, Zpg, Zpg); var source := Peek(s, s.pc); var dest := Peek(s, Next(s.pc, 1));
      && t.bus == Bus.Write(s.bus, dest as int, Peek(s, source as int) + 1)
      && t.pc == Next(Next(s.pc, 1), 1)
      && t == s.(pc := t.pc, bus := t.bus)
  {
  }

  // ------------------------------------------------------------------
  // Steps through the table
  // ------------------------------------------------------------------

  /** Two single increments of PC are one increment by two. */
  lemma NextNext(pc: u16)
    ensures Next(Next(pc, 1), 1) == Next(pc, 2)
  {
  }

  /**
   * Opcode 0xA9, `LDA #imm`: A takes the byte after the opcode, N and Z
   * follow it, PC moves by two and the step takes 2 cycles.
   */
  lemma LdaImmediateStep(s: State)
    requires Peek(s, s.pc) == 0xA9
    ensures var o := Step(s); var v := Peek(s, Next(s.pc, 1));
      && o.status == Cycles(2)
      && o.state.a == v && NZFrom(s.flags, o.state.flags, v)
      && o.state == s.(a := v, flags := o.state.flags, pc := Next(s.pc, 2))
  {
    assert Decode(0xA9) == Entry(Lda_(Imm), 2);
    NextNext(s.pc);
  }

  /** An undefined opcode moves PC past the opcode only and takes 0 cycles. */
  lemma UndefinedStep(s: State)
    requires Decode(Peek(s, s.pc)).instr == Nop && Peek(s, s.pc) != 0xEA
    ensures Step(s) == Outcome(s.(pc := Next(s.pc, 1)), Cycles(0))
  {
    AllFacts(Peek(s, s.pc));
  }

  /**
   * Opcode 0x90, `BCC rel`, with C clear and a target below 0x4000: the
   * branch is taken and the handler never returns.
   */
  lemma BccHangStep(s: State)
    requires Peek(s, s.pc) == 0x90 && !TestFlag(s.flags, C)
    requires (Next(s.pc, 2) + Signed(Peek(s, Next(s.pc, 1)))) % 0x1_0000 < 0x4000
    ensures Step(s).status == Hang
  {
    assert Decode(0x90) == Entry(Bcc_(Rel), 2);
    NextNext(s.pc);
  }
}
