/**
 * The opcode table `cpu6502opmap` of nesulator3/cpu.cpp: for each opcode,
 * the template instantiation it calls and the cycle count it returns.
 * The table is kept as written, including entries whose handler, addressing
 * modes or cycle counts differ from the MOS 6502 (see README.md).
 */
module OpMap {
  import opened Bits
  import opened Machine
  import opened Instructions

  /** The table by rows of sixteen: row k holds the opcodes 0xk0 to 0xkF. */
  const Rows: seq<seq<Entry>> := [
      // 0x00 - 0x0F
      [Entry(Brk_, 7), Entry(Ora_(Xind), 6), Entry(Nop, 0), Entry(Nop, 0), Entry(Nop, 0), Entry(Ora_(Zpg), 3), Entry(Asl_(Zpg, Zpg), 5), Entry(Nop, 0),
       Entry(Php_, 3), Entry(Ora_(Imm), 2), Entry(Asl_(Acc, Acc), 2), Entry(Nop, 0), Entry(Nop, 0), Entry(Ora_(Abs), 4), Entry(Asl_(Abs, Abs), 6), Entry(Nop, 0)],
      // 0x10 - 0x1F
      [Entry(Bpl_(Rel), 2), Entry(Ora_(Indy), 5), Entry(Nop, 0), Entry(Nop, 0), Entry(Nop, 0), Entry(Ora_(Zpgx), 4), Entry(Asl_(Zpgx, Zpgx), 6), Entry(Nop, 0),
       Entry(Clc_, 2), Entry(Ora_(Absy), 4), Entry(Nop, 0), Entry(Nop, 0), Entry(Nop, 0), Entry(Ora_(Absx), 4), Entry(Asl_(Absx, Absx), 7), Entry(Nop, 0)],
      // 0x20 - 0x2F
      [Entry(Jsr_(Abs16), 6), Entry(And_(Xind), 6), Entry(Nop, 0), Entry(Nop, 0), Entry(Bit_(Zpg), 3), Entry(And_(Zpg), 3), Entry(Rol_(Zpg, Zpg), 5), Entry(Nop, 0),
       Entry(Plp_, 4), Entry(And_(Imm), 2), Entry(Rol_(Acc, Acc), 2), Entry(Nop, 0), Entry(Bit_(Abs), 4), Entry(And_(Abs), 4), Entry(Rol_(Abs, Abs), 6), Entry(Nop, 0)],
      // 0x30 - 0x3F
      [Entry(Bmi_(Rel), 2), Entry(And_(Indy), 5), Entry(Nop, 0), Entry(Nop, 0), Entry(Nop, 0), Entry(And_(Zpgx), 4), Entry(Rol_(Zpgx, Zpgx), 6), Entry(Nop, 0),
       Entry(Sec_, 2), Entry(And_(Absy), 4), Entry(Nop, 0), Entry(Nop, 0), Entry(Nop, 0), Entry(And_(Absx), 4), Entry(Rol_(Absx, Absx), 7), Entry(Nop, 0)],
      // 0x40 - 0x4F
      [Entry(Rti_, 6), Entry(Eor_(Xind), 6), Entry(Nop, 0), Entry(Nop, 0), Entry(Nop, 0), Entry(Eor_(Zpg), 3), Entry(Lsr_(Zpg, Zpg), 5), Entry(Nop, 0),
       Entry(Pha_, 3), Entry(Eor_(Imm), 2), Entry(Lsr_(Acc, Acc), 2), Entry(Nop, 0), Entry(Jmp_(Abs16), 3), Entry(Eor_(Abs), 4), Entry(Lsr_(Abs, Abs), 6), Entry(Nop, 0)],
      // 0x50 - 0x5F
      [Entry(Bvc_(Rel), 2), Entry(Eor_(Indy), 5), Entry(Nop, 0), Entry(Nop, 0), Entry(Nop, 0), Entry(Eor_(Zpgx), 4), Entry(Lsr_(Zpgx, Zpgx), 6), Entry(Nop, 0),
       Entry(Cli_, 2), Entry(Eor_(Absy), 4), Entry(Nop, 0), Entry(Nop, 0), Entry(Nop, 0), Entry(Eor_(Absx), 4), Entry(Lsr_(Absx, Absx), 7), Entry(Nop, 0)],
      // 0x60 - 0x6F
      [Entry(Rts_, 6), Entry(Adc_(Xind), 6), Entry(Nop, 0), Entry(Nop, 0), Entry(Nop, 0), Entry(Adc_(Zpg), 3), Entry(Ror_(Zpg, Zpg), 5), Entry(Nop, 0),
       Entry(Pla_, 4), Entry(Adc_(Imm), 2), Entry(Ror_(Acc, Acc), 2), Entry(Nop, 0), Entry(Jmp_(Ind16), 5), Entry(Adc_(Abs), 4), Entry(Ror_(Abs, Abs), 6), Entry(Nop, 0)],
      // 0x70 - 0x7F
      [Entry(Bvs_(Rel), 2), Entry(Adc_(Indy), 5), Entry(Nop, 0), Entry(Nop, 0), Entry(Nop, 0), Entry(Adc_(Zpgx), 4), Entry(Ror_(Zpgx, Zpgx), 6), Entry(Nop, 0),
       Entry(Sei_, 2), Entry(Adc_(Absy), 4), Entry(Nop, 0), Entry(Nop, 0), Entry(Nop, 0), Entry(Adc_(Absx), 4), Entry(Ror_(Absx, Absx), 7), Entry(Nop, 0)],
      // 0x80 - 0x8F
      [Entry(Nop, 0), Entry(Sta_(Xind), 6), Entry(Nop, 0), Entry(Nop, 0), Entry(Sty_(Zpg), 3), Entry(Sta_(Zpg), 3), Entry(Stx_(Zpg), 3), Entry(Nop, 0),
       Entry(Dey_, 2), Entry(Nop, 0), Entry(Txa_, 2), Entry(Nop, 0), Entry(Sty_(Abs), 3), Entry(Sta_(Abs), 4), Entry(Stx_(Abs), 4), Entry(Nop, 0)],
      // 0x90 - 0x9F
      [Entry(Bcc_(Rel), 2), Entry(Sta_(Indy), 6), Entry(Nop, 0), Entry(Nop, 0), Entry(Sty_(Zpgx), 4), Entry(Sta_(Zpgx), 4), Entry(Stx_(Zpgy), 4), Entry(Nop, 0),
       Entry(Tya_, 2), Entry(Sta_(Absy), 5), Entry(Txs_, 2), Entry(Nop, 0), Entry(Nop, 0), Entry(Sta_(Absx), 5), Entry(Nop, 0), Entry(Nop, 0)],
      // 0xA0 - 0xAF
      [Entry(Ldy_(Imm), 2), Entry(Lda_(Xind), 6), Entry(Ldx_(Imm), 2), Entry(Nop, 0), Entry(Ldy_(Zpg), 3), Entry(Lda_(Zpg), 3), Entry(Ldx_(Zpg), 3), Entry(Nop, 0),
       Entry(Tay_, 2), Entry(Lda_(Imm), 2), Entry(Tax_, 2), Entry(Nop, 0), Entry(Ldy_(Abs), 4), Entry(Lda_(Abs), 4), Entry(Ldx_(Abs), 4), Entry(Nop, 0)],
      // 0xB0 - 0xBF
      [Entry(Bcs_(Rel), 2), Entry(Lda_(Indy), 5), Entry(Nop, 0), Entry(Nop, 0), Entry(Ldy_(Zpgx), 4), Entry(Lda_(Zpgx), 4), Entry(Ldx_(Zpgy), 4), Entry(Nop, 0),
       Entry(Clv_, 2), Entry(Lda_(Absy), 4), Entry(Tsx_, 2), Entry(Nop, 0), Entry(Ldy_(Absx), 4), Entry(Lda_(Absx), 4), Entry(Ldx_(Absy), 4), Entry(Nop, 0)],
      // 0xC0 - 0xCF
      [Entry(Cpy_(Imm), 2), Entry(Cmp_(Xind), 6), Entry(Nop, 0), Entry(Nop, 0), Entry(Cpy_(Zpg), 4), Entry(Cmp_(Zpg), 3), Entry(Dec_(Zpg, Zpg), 5), Entry(Nop, 0),
       Entry(Iny_, 2), Entry(Cmp_(Imm), 2), Entry(Dex_, 2), Entry(Nop, 0), Entry(Cpy_(Abs), 4), Entry(Cmp_(Abs), 4), Entry(Dec_(Abs, Abs), 3), Entry(Nop, 0)],
      // 0xD0 - 0xDF
      [Entry(Bne_(Rel), 2), Entry(Cmp_(Indy), 5), Entry(Nop, 0), Entry(Nop, 0), Entry(Nop, 0), Entry(Cmp_(Zpgx), 4), Entry(Dec_(Zpgx, Zpgx), 6), Entry(Nop, 0),
       Entry(Cld_, 2), Entry(Cmp_(Absy), 4), Entry(Nop, 0), Entry(Nop, 0), Entry(Nop, 0), Entry(Cmp_(Absx), 4), Entry(Dec_(Absx, Absx), 7), Entry(Nop, 0)],
      // 0xE0 - 0xEF
      [Entry(Cpx_(Imm), 2), Entry(Sbc_(Xind), 6), Entry(Nop, 0), Entry(Nop, 0), Entry(Cpx_(Zpg), 3), Entry(Sbc_(Zpg), 3), Entry(Inc_(Zpg, Zpgx), 5), Entry(Nop, 0),
       Entry(Inx_, 2), Entry(Sbc_(Imm), 2), Entry(Nop, 2), Entry(Nop, 0), Entry(Cpx_(Abs), 4), Entry(Sbc_(Abs), 4), Entry(Inc_(Abs, Abs), 6), Entry(Nop, 0)],
      // 0xF0 - 0xFF
      [Entry(Beq_(Rel), 2), Entry(Sbc_(Indy), 5), Entry(Nop, 0), Entry(Nop, 0), Entry(Nop, 0), Entry(Sbc_(Zpgx), 4), Entry(Inc_(Zpgx, Zpgx), 6), Entry(Nop, 0),
       Entry(Clv_, 2), Entry(Sbc_(Absy), 4), Entry(Nop, 0), Entry(Nop, 0), Entry(Nop, 0), Entry(Sbc_(Absx), 4), Entry(Inc_(Absx, Absx), 7), Entry(Nop, 0)]
    ]

  /** The entry an opcode selects. */
  function Decode(opcode: bv8): Entry
  {
    Rows[(opcode >> 4) as int][(opcode & 0xF) as int]
  }

  /**
   * One fetch and dispatch through the table. `stepCpu` has no body in
   * the source, so this step is not part of it: the opcode is read at PC,
   * PC moves past it, and the selected entry runs.
   */
  function Step(s: State): Outcome
  {
    Exec(s.(pc := Next(s.pc, 1)), Decode(Peek(s, s.pc)))
  }

  /** A conditional-branch template (`BPL` ... `BEQ`). */
  predicate IsBranch(i: Instr)
  {
    i.Bpl_? || i.Bmi_? || i.Bvc_? || i.Bvs_? || i.Bcc_? || i.Bcs_? || i.Bne_? || i.Beq_?
  }

  /** A read-modify-write template whose read and write primitives use the same addressing mode. */
  predicate SameModes(i: Instr)
  {
    match i
    case Asl_(r, w) => r == w
    case Lsr_(r, w) => r == w
    case Rol_(r, w) => r == w
    case Ror_(r, w) => r == w
    case Inc_(r, w) => r == w
    case Dec_(r, w) => r == w
    case _ => true
  }

  /**
   * What the table satisfies at one opcode:
   * - an undefined entry (`nop<0>`) returns 0 cycles, the one defined
   *   `nop<2>` at 0xEA returns 2, and every other entry between 2 and 7;
   * - the branches sit exactly at the opcodes whose low five bits are 0x10,
   *   each with 2 cycles;
   * - `SED` has no opcode: 0xF8, where the 6502 has it, holds a second
   *   `CLV` beside the one at 0xB8;
   * - every read-modify-write entry reads and writes with the same mode
   *   except 0xE6, `INC` with `zpgRead` and `zpgxWrite`.
   */
  predicate Facts(opcode: bv8, e: Entry)
  {
    && (e.instr.Nop? ==> e.cycles == if opcode == 0xEA then 2 else 0)
    && (!e.instr.Nop? ==> 2 <= e.cycles <= 7)
    && (IsBranch(e.instr) <==> opcode & 0x1F == 0x10)
    && (IsBranch(e.instr) ==> e.cycles == 2)
    && e.instr != Sed_
    && ((e.instr == Clv_) <==> opcode == 0xB8 || opcode == 0xF8)
    && (SameModes(e.instr) <==> opcode != 0xE6)
  }

  // One lemma per row of the table, so that each proof enumerates sixteen entries.

  lemma Row0(opcode: bv8)
    requires opcode >> 4 == 0x0
    ensures Facts(opcode, Decode(opcode))
  {
  }

  lemma Row1(opcode: bv8)
    requires opcode >> 4 == 0x1
    ensures Facts(opcode, Decode(opcode))
  {
  }

  lemma Row2(opcode: bv8)
    requires opcode >> 4 == 0x2
    ensures Facts(opcode, Decode(opcode))
  {
  }

  lemma Row3(opcode: bv8)
    requires opcode >> 4 == 0x3
    ensures Facts(opcode, Decode(opcode))
  {
  }

  lemma Row4(opcode: bv8)
    requires opcode >> 4 == 0x4
    ensures Facts(opcode, Decode(opcode))
  {
  }

  lemma Row5(opcode: bv8)
    requires opcode >> 4 == 0x5
    ensures Facts(opcode, Decode(opcode))
  {
  }

  lemma Row6(opcode: bv8)
    requires opcode >> 4 == 0x6
    ensures Facts(opcode, Decode(opcode))
  {
  }

  lemma Row7(opcode: bv8)
    requires opcode >> 4 == 0x7
    ensures Facts(opcode, Decode(opcode))
  {
  }

  lemma Row8(opcode: bv8)
    requires opcode >> 4 == 0x8
    ensures Facts(opcode, Decode(opcode))
  {
  }

  lemma Row9(opcode: bv8)
    requires opcode >> 4 == 0x9
    ensures Facts(opcode, Decode(opcode))
  {
  }

  lemma RowA(opcode: bv8)
    requires opcode >> 4 == 0xA
    ensures Facts(opcode, Decode(opcode))
  {
  }

  lemma RowB(opcode: bv8)
    requires opcode >> 4 == 0xB
    ensures Facts(opcode, Decode(opcode))
  {
  }

  lemma RowC(opcode: bv8)
    requires opcode >> 4 == 0xC
    ensures Facts(opcode, Decode(opcode))
  {
  }

  lemma RowD(opcode: bv8)
    requires opcode >> 4 == 0xD
    ensures Facts(opcode, Decode(opcode))
  {
  }

  lemma RowE(opcode: bv8)
    requires opcode >> 4 == 0xE
    ensures Facts(opcode, Decode(opcode))
  {
  }

  lemma RowF(opcode: bv8)
    requires opcode >> 4 == 0xF
    ensures Facts(opcode, Decode(opcode))
  {
  }

  /** `Facts` holds at every opcode. */
  lemma AllFacts(opcode: bv8)
    ensures Facts(opcode, Decode(opcode))
  {
    var row := opcode >> 4;
    if row == 0x0 { Row0(opcode); }
    else if row == 0x1 { Row1(opcode); }
    else if row == 0x2 { Row2(opcode); }
    else if row == 0x3 { Row3(opcode); }
    else if row == 0x4 { Row4(opcode); }
    else if row == 0x5 { Row5(opcode); }
    else if row == 0x6 { Row6(opcode); }
    else if row == 0x7 { Row7(opcode); }
    else if row == 0x8 { Row8(opcode); }
    else if row == 0x9 { Row9(opcode); }
    else if row == 0xA { RowA(opcode); }
    else if row == 0xB { RowB(opcode); }
    else if row == 0xC { RowC(opcode); }
    else if row == 0xD { RowD(opcode); }
    else if row == 0xE { RowE(opcode); }
    else { RowF(opcode); }
  }

  /** Cycle counts: 0 exactly for undefined entries, 2 for 0xEA, otherwise 2 to 7. */
  lemma CycleCounts(opcode: bv8)
    ensures var e := Decode(opcode);
      && (e.instr.Nop? ==> e.cycles == if opcode == 0xEA then 2 else 0)
      && (!e.instr.Nop? ==> 2 <= e.cycles <= 7)
  {
    AllFacts(opcode);
  }

  /** The branches are the entries whose opcode has low five bits 0x10; each takes 2 cycles. */
  lemma BranchColumn(opcode: bv8)
    ensures var e := Decode(opcode);
      && (IsBranch(e.instr) <==> opcode & 0x1F == 0x10)
      && (IsBranch(e.instr) ==> e.cycles == 2)
  {
    AllFacts(opcode);
  }

  /** No opcode selects `SED`; `CLV` is selected by both 0xB8 and 0xF8. */
  lemma SedUnreachable(opcode: bv8)
    ensures Decode(opcode).instr != Sed_
    ensures Decode(opcode).instr == Clv_ <==> opcode == 0xB8 || opcode == 0xF8
  {
    AllFacts(opcode);
  }

  /** Read and write modes agree in every read-modify-write entry but 0xE6. */
  lemma ReadModifyWriteModes(opcode: bv8)
    ensures SameModes(Decode(opcode).instr) <==> opcode != 0xE6
    ensures Decode(0xE6) == Entry(Inc_(Zpg, Zpgx), 5)
  {
    AllFacts(opcode);
  }
}
