/**
 * The instruction templates of nesulator3/cpu.cpp as pure functions of the
 * CPU state. Each template of the source is generic over its read and/or
 * write primitive and its cycle count; here the primitive is a parameter
 * (`Operand`, `Target` or `Address`) and the cycle count lives in the
 * opcode table (module OpMap). Every function receives the state with PC
 * already past the opcode byte. The behaviour is that of the source as
 * written, including its defects (see README.md).
 */
module Instructions {
  import opened Bits
  import opened Flags
  import opened Machine
  import Bus

  /** The status byte `after` carries N and Z for `v` and agrees with `before` elsewhere. */
  predicate NZFrom(before: bv8, after: bv8, v: bv8)
  {
    && TestFlag(after, N) == (v & 0x80 != 0)
    && TestFlag(after, Z) == (v == 0)
    && after & !(N | Z) == before & !(N | Z)
  }

  /** Only the flag bits of `mask` may differ between `before` and `after`. */
  predicate OthersKept(before: bv8, after: bv8, mask: bv8)
  {
    after & !mask == before & !mask
  }

  // ------------------------------------------------------------------
  // Flag instructions
  // ------------------------------------------------------------------

  /** `CLC`: clears C; nothing else changes. */
  function Clc(s: State): (t: State)
    ensures !TestFlag(t.flags, C) && OthersKept(s.flags, t.flags, C)
    ensures t == s.(flags := t.flags)
  {
    s.(flags := UnsetFlag(s.flags, C))
  }

  /** `SEC`: sets C; nothing else changes. */
  function Sec(s: State): (t: State)
    ensures TestFlag(t.flags, C) && OthersKept(s.flags, t.flags, C)
    ensures t == s.(flags := t.flags)
  {
    s.(flags := SetFlag(s.flags, C))
  }

  /** `CLI`: clears I; nothing else changes. */
  function Cli(s: State): (t: State)
    ensures !TestFlag(t.flags, I) && OthersKept(s.flags, t.flags, I)
    ensures t == s.(flags := t.flags)
  {
    s.(flags := UnsetFlag(s.flags, I))
  }

  /** `SEI`: sets I; nothing else changes. */
  function Sei(s: State): (t: State)
    ensures TestFlag(t.flags, I) && OthersKept(s.flags, t.flags, I)
    ensures t == s.(flags := t.flags)
  {
    s.(flags := SetFlag(s.flags, I))
  }

  /** `CLV`: clears V; nothing else changes. */
  function Clv(s: State): (t: State)
    ensures !TestFlag(t.flags, V) && OthersKept(s.flags, t.flags, V)
    ensures t == s.(flags := t.flags)
  {
    s.(flags := UnsetFlag(s.flags, V))
  }

  /** `CLD`: clears D; nothing else changes. */
  function Cld(s: State): (t: State)
    ensures !TestFlag(t.flags, D) && OthersKept(s.flags, t.flags, D)
    ensures t == s.(flags := t.flags)
  {
    s.(flags := UnsetFlag(s.flags, D))
  }

  /** `SED`: sets D; nothing else changes. */
  function Sed(s: State): (t: State)
    ensures TestFlag(t.flags, D) && OthersKept(s.flags, t.flags, D)
    ensures t == s.(flags := t.flags)
  {
    s.(flags := SetFlag(s.flags, D))
  }

  // ------------------------------------------------------------------
  // Loads, stores, transfers
  // ------------------------------------------------------------------

  /** `LDA`: A takes the operand, N and Z follow it; PC moves past the operand. */
  function Lda(s: State, r: Operand): (t: State)
    ensures var f := ReadOperand(s, r);
      t.a == f.value && NZFrom(s.flags, t.flags, t.a) && t == f.state.(a := t.a, flags := t.flags)
  {
    var f := ReadOperand(s, r);
    f.state.(a := f.value, flags := Donz(f.state.flags, f.value))
  }

  /** `LDX`: X takes the operand, N and Z follow it. */
  function Ldx(s: State, r: Operand): (t: State)
    ensures var f := ReadOperand(s, r);
      t.x == f.value && NZFrom(s.flags, t.flags, t.x) && t == f.state.(x := t.x, flags := t.flags)
  {
    var f := ReadOperand(s, r);
    f.state.(x := f.value, flags := Donz(f.state.flags, f.value))
  }

  /** `LDY`: Y takes the operand, N and Z follow it. */
  function Ldy(s: State, r: Operand): (t: State)
    ensures var f := ReadOperand(s, r);
      t.y == f.value && NZFrom(s.flags, t.flags, t.y) && t == f.state.(y := t.y, flags := t.flags)
  {
    var f := ReadOperand(s, r);
    f.state.(y := f.value, flags := Donz(f.state.flags, f.value))
  }

  /** `STA`: A goes through the write primitive; no register but PC changes. */
  function Sta(s: State, w: Target): (t: State)
    ensures t == WriteOperand(s, w, s.a)
    ensures t.flags == s.flags && t.x == s.x && t.y == s.y && t.sp == s.sp && t.a == s.a
  {
    WriteOperand(s, w, s.a)
  }

  /** `STX`: X goes through the write primitive. */
  function Stx(s: State, w: Target): (t: State)
    ensures t == WriteOperand(s, w, s.x)
    ensures t.flags == s.flags && t.x == s.x && t.y == s.y && t.sp == s.sp
  {
    WriteOperand(s, w, s.x)
  }

  /** `STY`: Y goes through the write primitive. */
  function Sty(s: State, w: Target): (t: State)
    ensures t == WriteOperand(s, w, s.y)
    ensures t.flags == s.flags && t.x == s.x && t.y == s.y && t.sp == s.sp
  {
    WriteOperand(s, w, s.y)
  }

  /** `TAX`: X takes A, N and Z follow it. */
  function Tax(s: State): (t: State)
    ensures t.x == s.a && NZFrom(s.flags, t.flags, s.a) && t == s.(x := t.x, flags := t.flags)
  {
    s.(x := s.a, flags := Donz(s.flags, s.a))
  }

  /** `TAY`: Y takes A, N and Z follow it. */
  function Tay(s: State): (t: State)
    ensures t.y == s.a && NZFrom(s.flags, t.flags, s.a) && t == s.(y := t.y, flags := t.flags)
  {
    s.(y := s.a, flags := Donz(s.flags, s.a))
  }

  /** `TXA`: A takes X, N and Z follow it. */
  function Txa(s: State): (t: State)
    ensures t.a == s.x && NZFrom(s.flags, t.flags, s.x) && t == s.(a := t.a, flags := t.flags)
  {
    s.(a := s.x, flags := Donz(s.flags, s.x))
  }

  /** `TYA`: A takes Y, N and Z follow it. */
  function Tya(s: State): (t: State)
    ensures t.a == s.y && NZFrom(s.flags, t.flags, s.y) && t == s.(a := t.a, flags := t.flags)
  {
    s.(a := s.y, flags := Donz(s.flags, s.y))
  }

  /** `TSX`: X takes SP, N and Z follow it. */
  function Tsx(s: State): (t: State)
    ensures t.x == s.sp && NZFrom(s.flags, t.flags, s.sp) && t == s.(x := t.x, flags := t.flags)
  {
    s.(x := s.sp, flags := Donz(s.flags, s.sp))
  }

  /** `TXS`: SP takes X; the flags do not change. */
  function Txs(s: State): (t: State)
    ensures t.sp == s.x && t == s.(sp := t.sp)
  {
    s.(sp := s.x)
  }

  // ------------------------------------------------------------------
  // Increments and decrements
  // ------------------------------------------------------------------

  /** `INX`: X becomes (X + 1) mod 256, N and Z follow it. */
  function Inx(s: State): (t: State)
    ensures t.x == s.x + 1
    ensures NZFrom(s.flags, t.flags, t.x) && t == s.(x := t.x, flags := t.flags)
  {
    var v := s.x + 1;
    s.(x := v, flags := Donz(s.flags, v))
  }

  /** `INY`: Y becomes (Y + 1) mod 256, N and Z follow it. */
  function Iny(s: State): (t: State)
    ensures t.y == s.y + 1
    ensures NZFrom(s.flags, t.flags, t.y) && t == s.(y := t.y, flags := t.flags)
  {
    var v := s.y + 1;
    s.(y := v, flags := Donz(s.flags, v))
  }

  /** `DEX`: X becomes (X - 1) mod 256, N and Z follow it. */
  function Dex(s: State): (t: State)
    ensures t.x == s.x - 1
    ensures NZFrom(s.flags, t.flags, t.x) && t == s.(x := t.x, flags := t.flags)
  {
    var v := s.x - 1;
    s.(x := v, flags := Donz(s.flags, v))
  }

  /** `DEY`: Y becomes (Y - 1) mod 256, N and Z follow it. */
  function Dey(s: State): (t: State)
    ensures t.y == s.y - 1
    ensures NZFrom(s.flags, t.flags, t.y) && t == s.(y := t.y, flags := t.flags)
  {
    var v := s.y - 1;
    s.(y := v, flags := Donz(s.flags, v))
  }

  /**
   * `INC`: writes (operand + 1) mod 256 through the write primitive. The
   * source never calls `donz` here, so no flag changes.
   */
  function Inc(s: State, r: Operand, w: Target): (t: State)
    ensures var f := ReadOperand(s, r); var after := s.(pc := Next(s.pc, ReadWidth(r)));
      && t.pc == Next(after.pc, WriteWidth(w))
      && (w == Acc ==> t == s.(a := f.value + 1, pc := t.pc))
      && (w != Acc ==> t.bus == Bus.Write(s.bus, WriteAddress(after, w), f.value + 1))
      && (w != Acc ==> t == s.(pc := t.pc, bus := t.bus))
  {
    var f := ReadOperand(s, r);
    if w != Acc then
      WriteOperandBus(f.state, w, f.value + 1);
      WriteOperand(f.state, w, f.value + 1)
    else
      WriteOperand(f.state, w, f.value + 1)
  }

  /** `DEC`: writes (operand - 1) mod 256 through the write primitive; N and Z follow it. */
  function Dec(s: State, r: Operand, w: Target): (t: State)
    ensures var f := ReadOperand(s, r); var v := f.value - 1;
      t == WriteOperand(f.state, w, v).(flags := t.flags) && NZFrom(s.flags, t.flags, v)
  {
    var f := ReadOperand(s, r);
    var v := f.value - 1;
    var u := WriteOperand(f.state, w, v);
    u.(flags := Donz(u.flags, v))
  }

  // ------------------------------------------------------------------
  // Logic
  // ------------------------------------------------------------------

  /** `ORA`: A becomes A | operand, N and Z follow it. */
  function Ora(s: State, r: Operand): (t: State)
    ensures var f := ReadOperand(s, r);
      t.a == s.a | f.value && NZFrom(s.flags, t.flags, t.a) && t == f.state.(a := t.a, flags := t.flags)
  {
    var f := ReadOperand(s, r);
    var v := s.a | f.value;
    f.state.(a := v, flags := Donz(f.state.flags, v))
  }

  /** `AND`: A becomes A & operand, N and Z follow it. */
  function And(s: State, r: Operand): (t: State)
    ensures var f := ReadOperand(s, r);
      t.a == s.a & f.value && NZFrom(s.flags, t.flags, t.a) && t == f.state.(a := t.a, flags := t.flags)
  {
    var f := ReadOperand(s, r);
    var v := s.a & f.value;
    f.state.(a := v, flags := Donz(f.state.flags, v))
  }

  /** `EOR`: A becomes A ^ operand, N and Z follow it. */
  function Eor(s: State, r: Operand): (t: State)
    ensures var f := ReadOperand(s, r);
      t.a == s.a ^ f.value && NZFrom(s.flags, t.flags, t.a) && t == f.state.(a := t.a, flags := t.flags)
  {
    var f := ReadOperand(s, r);
    var v := s.a ^ f.value;
    f.state.(a := v, flags := Donz(f.state.flags, v))
  }

  /**
   * `BIT`: N and Z follow res = A & operand, and V becomes bit 6 of res
   * (not of the operand); A is not changed.
   */
  function Bit(s: State, r: Operand): (t: State)
    ensures var f := ReadOperand(s, r); var res := s.a & f.value;
      && TestFlag(t.flags, N) == (res & 0x80 != 0)
      && TestFlag(t.flags, Z) == (res == 0)
      && TestFlag(t.flags, V) == (res & 0x40 != 0)
      && OthersKept(s.flags, t.flags, N | Z | V)
      && t == f.state.(flags := t.flags)
  {
    var f := ReadOperand(s, r);
    var res := s.a & f.value;
    f.state.(flags := SetFlagTo(Donz(f.state.flags, res), V, res & 0x40 != 0))
  }

  // ------------------------------------------------------------------
  // Shifts and rotates (read primitive, then write primitive)
  // ------------------------------------------------------------------

  /** `m << 1` after integer promotion, stored in a `uint16_t`: twice the byte's value. */
  function Widened(m: bv8): (v: u16)
    ensures v == m as int * 2
  {
    m as int * 2
  }

  /** Bit 8 of twice a byte value is its bit 7. */
  lemma DoubleBits(m: int)
    requires 0 <= m < 0x100
    ensures (m * 2 / 0x100 % 2 == 1) == (m >= 0x80)
  {
  }

  /** The status byte after `ASL` of `m`: `donzc` of the 16-bit value 2 * m. */
  function ShiftLeftStatus(flags: bv8, m: bv8): (r: bv8)
    ensures TestFlag(r, C) == (m & 0x80 != 0)
    ensures TestFlag(r, N) == (Low(Widened(m)) & 0x80 != 0)
    ensures TestFlag(r, Z) == (Low(Widened(m)) == 0)
    ensures OthersKept(flags, r, N | Z | C)
  {
    DoubleBits(m as int);
    HighBit(m);
    Donzc(flags, Widened(m))
  }

  /**
   * `ASL`: the operand shifted left in 16 bits; its low byte goes through
   * the write primitive, and `donzc` on the 16-bit value sets N and Z from
   * that byte and C to the operand's old bit 7.
   */
  function Asl(s: State, r: Operand, w: Target): (t: State)
    ensures var f := ReadOperand(s, r); var v := Low(Widened(f.value));
      && t == WriteOperand(f.state, w, v).(flags := t.flags)
      && TestFlag(t.flags, C) == (f.value & 0x80 != 0)
      && TestFlag(t.flags, N) == (v & 0x80 != 0)
      && TestFlag(t.flags, Z) == (v == 0)
      && OthersKept(s.flags, t.flags, N | Z | C)
  {
    var f := ReadOperand(s, r);
    var u := WriteOperand(f.state, w, Low(Widened(f.value)));
    u.(flags := ShiftLeftStatus(u.flags, f.value))
  }

  /** The status byte after `LSR` of `m`: `donz` of m >> 1, then C from bit 0 of m. */
  function ShiftRightStatus(flags: bv8, m: bv8): (r: bv8)
    ensures !TestFlag(r, N)
    ensures TestFlag(r, Z) == (m >> 1 == 0)
    ensures TestFlag(r, C) == (m & 1 != 0)
    ensures OthersKept(flags, r, N | Z | C)
  {
    SetFlagTo(Donz(flags, m >> 1), C, m & 1 != 0)
  }

  /**
   * `LSR`: the operand shifted right by one goes through the write
   * primitive; N (always clear) and Z follow it and C becomes the old bit 0.
   */
  function Lsr(s: State, r: Operand, w: Target): (t: State)
    ensures var f := ReadOperand(s, r); var v := f.value >> 1;
      && t == WriteOperand(f.state, w, v).(flags := t.flags)
      && !TestFlag(t.flags, N)
      && TestFlag(t.flags, Z) == (v == 0)
      && TestFlag(t.flags, C) == (f.value & 1 != 0)
      && OthersKept(s.flags, t.flags, N | Z | C)
  {
    var f := ReadOperand(s, r);
    var u := WriteOperand(f.state, w, f.value >> 1);
    u.(flags := ShiftRightStatus(u.flags, f.value))
  }

  /** `(m << 1) | (m >> 7)` on a `uint8_t`: the byte rotated left by one. */
  function RotateLeft(m: bv8): (v: bv8)
    ensures v & 0xFE == m << 1 && (v & 1 != 0) == (m & 0x80 != 0)
  {
    (m << 1) | (m >> 7)
  }

  /** `(m >> 1) | (m << 7)` on a `uint8_t`: the byte rotated right by one. */
  function RotateRight(m: bv8): (v: bv8)
    ensures v & 0x7F == m >> 1 && (v & 0x80 != 0) == (m & 1 != 0)
  {
    (m >> 1) | (m << 7)
  }

  /** The status byte after a rotation to `v`: `donz` of v, then C set to `carry`. */
  function RotateStatus(flags: bv8, v: bv8, carry: bool): (r: bv8)
    ensures TestFlag(r, C) == carry
    ensures TestFlag(r, N) == (v & 0x80 != 0)
    ensures TestFlag(r, Z) == (v == 0)
    ensures OthersKept(flags, r, N | Z | C)
  {
    SetFlagTo(Donz(flags, v), C, carry)
  }

  /**
   * `ROL` as written: an 8-bit rotation that does not take the incoming
   * carry; C becomes the bit that wrapped around (the old bit 7, now bit
   * 0); N and Z follow the result.
   */
  function Rol(s: State, r: Operand, w: Target): (t: State)
    ensures var f := ReadOperand(s, r); var v := RotateLeft(f.value);
      && t == WriteOperand(f.state, w, v).(flags := t.flags)
      && TestFlag(t.flags, C) == (f.value & 0x80 != 0)
      && TestFlag(t.flags, N) == (v & 0x80 != 0)
      && TestFlag(t.flags, Z) == (v == 0)
      && OthersKept(s.flags, t.flags, N | Z | C)
  {
    var f := ReadOperand(s, r);
    var v := RotateLeft(f.value);
    var u := WriteOperand(f.state, w, v);
    u.(flags := RotateStatus(u.flags, v, v & 1 != 0))
  }

  /**
   * `ROR` as written: an 8-bit rotation that does not take the incoming
   * carry; C becomes the bit that wrapped around (the old bit 0, now bit
   * 7), so C always equals the new N.
   */
  function Ror(s: State, r: Operand, w: Target): (t: State)
    ensures var f := ReadOperand(s, r); var v := RotateRight(f.value);
      && t == WriteOperand(f.state, w, v).(flags := t.flags)
      && TestFlag(t.flags, C) == (f.value & 1 != 0)
      && TestFlag(t.flags, N) == TestFlag(t.flags, C)
      && TestFlag(t.flags, Z) == (v == 0)
      && OthersKept(s.flags, t.flags, N | Z | C)
  {
    var f := ReadOperand(s, r);
    var v := RotateRight(f.value);
    var u := WriteOperand(f.state, w, v);
    u.(flags := RotateStatus(u.flags, v, v & 0x80 != 0))
  }

  // ------------------------------------------------------------------
  // Arithmetic and compares
  // ------------------------------------------------------------------

  /** 1 when C is set, else 0. */
  function CarryIn(flags: bv8): int
  {
    if TestFlag(flags, C) then 1 else 0
  }

  /** `a + m + (testFlag(C) ? 1 : 0)` after integer promotion. */
  function AddTotal(a: bv8, m: bv8, flags: bv8): (total: int)
    ensures total == a as int + m as int + CarryIn(flags)
    ensures 0 <= total < 0x200
  {
    a as int + m as int + CarryIn(flags)
  }

  /** Bit 8 of a sum below 0x200 is set iff the sum is at least 0x100. */
  lemma SumBits(total: int)
    requires 0 <= total < 0x200
    ensures (total / 0x100 % 2 == 1) == (total >= 0x100)
  {
  }

  /**
   * The status update shared by `ADC` and `SBC`: `donzc` of the 16-bit
   * `value`, then V from bit 7 of `mayover & (m ^ A')`, where mayover is
   * `~(m ^ a)` and A' is `value` stored in a `uint8_t`.
   */
  function ArithStatus(flags: bv8, a: bv8, m: bv8, value: u16): bv8
  {
    SetFlagTo(Donzc(flags, value), V, !(m ^ a) & (m ^ Low(value)) & 0x80 != 0)
  }

  /**
   * The status byte after `ADC` of `m` to `a` whose 16-bit sum (carry-in
   * included) is `total`: `donzc` of `total`, then V from
   * `mayover & (m ^ sum) & 0x80`.
   */
  function AddStatus(flags: bv8, a: bv8, m: bv8, total: int): (r: bv8)
    requires 0 <= total < 0x200
    ensures TestFlag(r, C) == (total >= 0x100)
    ensures TestFlag(r, N) == (Low(total) & 0x80 != 0)
    ensures TestFlag(r, Z) == (Low(total) == 0)
    ensures TestFlag(r, V) == (!(m ^ a) & (m ^ Low(total)) & 0x80 != 0)
    ensures OthersKept(flags, r, N | V | Z | C)
  {
    var r0 := Donzc(flags, total);
    var overflow := !(m ^ a) & (m ^ Low(total)) & 0x80 != 0;
    SumBits(total);
    SetFlagToKeeps(r0, V, overflow, N);
    SetFlagToKeeps(r0, V, overflow, Z);
    SetFlagToKeeps(r0, V, overflow, C);
    ArithStatus(flags, a, m, total)
  }

  /** `ADC`: A takes the sum of A, the operand and C; the status byte follows `AddStatus`. */
  function Adc(s: State, r: Operand): State
  {
    var f := ReadOperand(s, r);
    var total := AddTotal(s.a, f.value, s.flags);
    f.state.(a := Low(total), flags := AddStatus(s.flags, s.a, f.value, total))
  }

  /**
   * `ADC`: with m the operand and total = A + m + C, A becomes total mod
   * 256, C becomes (total >= 256), N and Z follow the new A, and V is bit 7
   * of ~(m ^ A) & (m ^ A'): the operands agree in sign and the result does
   * not. Only PC (past the operand), A and those four flags change.
   */
  lemma AdcEffect(s: State, r: Operand)
    ensures var f := ReadOperand(s, r); var total := AddTotal(s.a, f.value, s.flags);
      var t := Adc(s, r);
      && t.a == Low(total)
      && TestFlag(t.flags, C) == (total >= 0x100)
      && TestFlag(t.flags, N) == (t.a & 0x80 != 0)
      && TestFlag(t.flags, Z) == (t.a == 0)
      && TestFlag(t.flags, V) == (!(f.value ^ s.a) & (f.value ^ t.a) & 0x80 != 0)
      && OthersKept(s.flags, t.flags, N | V | Z | C)
      && t == f.state.(a := t.a, flags := t.flags)
  {
  }

  /**
   * The status byte after `SBC` as written, whose 16-bit result `value` is
   * 0 or 1: `donzc` clears N and C and sets Z iff `value` is 0; V as in
   * `ArithStatus`.
   */
  function SubtractStatus(flags: bv8, a: bv8, v: bv8, value: u16): (r: bv8)
    requires value <= 1
    ensures !TestFlag(r, N) && !TestFlag(r, C)
    ensures TestFlag(r, Z) == (value == 0)
    ensures TestFlag(r, V) == (!(v ^ a) & (v ^ Low(value)) & 0x80 != 0)
    ensures OthersKept(flags, r, N | V | Z | C)
  {
    var r0 := Donzc(flags, value);
    var overflow := !(v ^ a) & (v ^ Low(value)) & 0x80 != 0;
    SetFlagToKeeps(r0, V, overflow, N);
    SetFlagToKeeps(r0, V, overflow, Z);
    SetFlagToKeeps(r0, V, overflow, C);
    ArithStatus(flags, a, v, value)
  }

  /** `(a + v + testFlag(C)) ? 1 : 0`: the sum collapsed to a truth value. */
  function Swallowed(a: bv8, v: bv8, flags: bv8): (value: u16)
    ensures value <= 1
    ensures (value == 0) == (a as int + v as int + CarryIn(flags) == 0)
  {
    if AddTotal(a, v, flags) != 0 then 1 else 0
  }

  /** `SBC` as written: see `SbcEffect`. */
  function Sbc(s: State, r: Operand): State
  {
    var f := ReadOperand(s, r);
    var v := !f.value;
    var value := Swallowed(s.a, v, f.state.flags);
    f.state.(a := Low(value), flags := SubtractStatus(f.state.flags, s.a, v, value))
  }

  /**
   * `SBC` as written. `A + v + testFlag(C) ? 1 : 0` parses as
   * `(A + v + C) ? 1 : 0` with v = ~operand, so A becomes 1 unless that sum
   * is 0, in which case it becomes 0; `donzc` of 0 or 1 then clears N and
   * C and sets Z iff A is 0; V is bit 7 of ~(v ^ A) & (v ^ A').
   */
  lemma SbcEffect(s: State, r: Operand)
    ensures var f := ReadOperand(s, r); var v := !f.value;
      var sum := s.a as int + v as int + CarryIn(s.flags);
      var t := Sbc(s, r);
      && t.a == (if sum != 0 then 1 else 0)
      && !TestFlag(t.flags, N) && !TestFlag(t.flags, C)
      && TestFlag(t.flags, Z) == (sum == 0)
      && TestFlag(t.flags, V) == (!(v ^ s.a) & (v ^ t.a) & 0x80 != 0)
      && OthersKept(s.flags, t.flags, N | V | Z | C)
      && t == f.state.(a := t.a, flags := t.flags)
  {
    var f := ReadOperand(s, r);
    assert f.state.flags == s.flags;
  }

  /** Where p - q stored in 16 bits has a zero low byte, bit 8 set, and which low byte. */
  lemma DifferenceBits(p: int, q: int)
    requires 0 <= p < 0x100 && 0 <= q < 0x100
    ensures var v := Wrap16(p - q);
      && (v % 0x100 == 0) == (p == q)
      && (v / 0x100 % 2 == 1) == (p < q)
      && v % 0x100 == (p - q) % 0x100
  {
    var v := Wrap16(p - q);
    if p >= q {
      assert v == p - q;
    } else {
      assert v == 0x1_0000 + p - q;
      assert v / 0x100 == 0xFF;
    }
  }

  /**
   * The status byte after comparing `register` with `m`: `donzc` of
   * (register - m) stored in a `uint16_t`.
   */
  function CompareStatus(flags: bv8, register: bv8, m: bv8): (r: bv8)
    ensures TestFlag(r, Z) == (register == m)
    ensures TestFlag(r, C) == (register as int < m as int)
    ensures TestFlag(r, N) == ((register as int - m as int) % 0x100 >= 0x80)
    ensures OthersKept(flags, r, N | Z | C)
  {
    var v := Wrap16(register as int - m as int);
    ByteEquality(register, m);
    DifferenceBits(register as int, m as int);
    Donzc(flags, v)
  }

  /**
   * The shared body of `CMP`, `CPX` and `CPY`. Z is set iff the register
   * equals the operand, C iff the register is below it (the opposite of
   * the 6502's carry), N is bit 7 of (register - operand) mod 256, and no
   * register changes.
   */
  function Compare(s: State, register: bv8, r: Operand): (t: State)
    ensures var f := ReadOperand(s, r);
      && TestFlag(t.flags, Z) == (register == f.value)
      && TestFlag(t.flags, C) == (register as int < f.value as int)
      && TestFlag(t.flags, N) == ((register as int - f.value as int) % 0x100 >= 0x80)
      && OthersKept(s.flags, t.flags, N | Z | C)
      && t == f.state.(flags := t.flags)
  {
    var f := ReadOperand(s, r);
    f.state.(flags := CompareStatus(f.state.flags, register, f.value))
  }

  /** `CMP`: compares A with the operand. */
  function Cmp(s: State, r: Operand): (t: State)
    ensures var f := ReadOperand(s, r);
      && TestFlag(t.flags, Z) == (s.a == f.value)
      && TestFlag(t.flags, C) == (s.a as int < f.value as int)
      && t == f.state.(flags := t.flags)
  {
    Compare(s, s.a, r)
  }

  /** `CPX`: compares X with the operand. */
  function Cpx(s: State, r: Operand): (t: State)
    ensures var f := ReadOperand(s, r);
      && TestFlag(t.flags, Z) == (s.x == f.value)
      && TestFlag(t.flags, C) == (s.x as int < f.value as int)
      && t == f.state.(flags := t.flags)
  {
    Compare(s, s.x, r)
  }

  /** `CPY`: compares Y with the operand. */
  function Cpy(s: State, r: Operand): (t: State)
    ensures var f := ReadOperand(s, r);
      && TestFlag(t.flags, Z) == (s.y == f.value)
      && TestFlag(t.flags, C) == (s.y as int < f.value as int)
      && t == f.state.(flags := t.flags)
  {
    Compare(s, s.y, r)
  }

  // ------------------------------------------------------------------
  // Branches and jumps
  // ------------------------------------------------------------------

  /**
   * The shared body of the branch templates: the 16-bit primitive is
   * always evaluated (for `rel` this moves PC past the offset byte), and
   * its value replaces PC only when `taken` holds.
   */
  function BranchIf(s: State, m: Address, taken: bool): (t: State)
    ensures m == Rel ==> t.pc == if taken then Wrap16(s.pc + 1 + Signed(Peek(s, s.pc))) else Next(s.pc, 1)
    ensures t == s.(pc := t.pc)
  {
    var f := ReadWord(s, m);
    if taken then f.state.(pc := f.value) else f.state
  }

  /** `BPL`: branches when N is clear. */
  function Bpl(s: State, m: Address): State
  {
    BranchIf(s, m, !TestFlag(s.flags, N))
  }

  /** `BMI`: branches when N is set. */
  function Bmi(s: State, m: Address): State
  {
    BranchIf(s, m, TestFlag(s.flags, N))
  }

  /** `BVC`: branches when V is clear. */
  function Bvc(s: State, m: Address): State
  {
    BranchIf(s, m, !TestFlag(s.flags, V))
  }

  /** `BVS`: branches when V is set. */
  function Bvs(s: State, m: Address): State
  {
    BranchIf(s, m, TestFlag(s.flags, V))
  }

  /** `BCC`: branches when C is clear (the hang that follows is in `Exec`). */
  function Bcc(s: State, m: Address): State
  {
    BranchIf(s, m, !TestFlag(s.flags, C))
  }

  /** `BCS`: branches when C is set. */
  function Bcs(s: State, m: Address): State
  {
    BranchIf(s, m, TestFlag(s.flags, C))
  }

  /** `BNE`: branches when Z is clear. */
  function Bne(s: State, m: Address): State
  {
    BranchIf(s, m, !TestFlag(s.flags, Z))
  }

  /**
   * `BEQ` as written: the test is `FLAGS.Z == 1` on the mask constant
   * (0x02), not on the status byte, so the branch is never taken.
   */
  function Beq(s: State, m: Address): (t: State)
    ensures t == BranchIf(s, m, false)
  {
    BranchIf(s, m, Z == 1)
  }

  /** `PC & 0xf` passed as a `uint8_t`: only the low nibble of PC. */
  function LowNibble(pc: u16): (b: bv8)
    ensures b as int == pc % 0x10
  {
    ByteValue(pc % 0x10);
    (pc % 0x10) as bv8
  }

  /** `PC >> 8` passed as a `uint8_t`: the high byte of PC. */
  function HighByte(pc: u16): (b: bv8)
    ensures b as int == pc / 0x100
  {
    ByteValue(pc / 0x100);
    (pc / 0x100) as bv8
  }

  /**
   * `PC += 2; push(PC & 0xf); push(PC >> 8)`, shared by `JSR` and `BRK`:
   * PC moves by two and SP by minus two; the two stack bytes are all that
   * change on the bus.
   */
  function PushReturn(s: State): (t: State)
    ensures t.pc == Next(s.pc, 2) && t.sp == s.sp - 2
    ensures t == s.(pc := t.pc, sp := t.sp, bus := t.bus)
  {
    var u := s.(pc := Next(s.pc, 2));
    var u1 := Push(u, LowNibble(u.pc));
    Push(u1, HighByte(u1.pc))
  }

  /** `JMP`: PC takes the 16-bit operand. */
  function Jmp(s: State, m: Address): (t: State)
    ensures t == s.(pc := ReadWord(s, m).value)
  {
    var f := ReadWord(s, m);
    f.state.(pc := f.value)
  }

  /**
   * `JSR` as written: with target the 16-bit operand, PC is advanced by
   * two, then `PC & 0xf` (only the low nibble) and `PC >> 8` are pushed in
   * that order, and PC becomes the target.
   */
  function Jsr(s: State, m: Address): (t: State)
    ensures var f := ReadWord(s, m); var ret := Next(f.state.pc, 2);
      t == Push(Push(f.state, LowNibble(ret)), HighByte(ret)).(pc := f.value)
    ensures t.sp == s.sp - 2
    ensures t.a == s.a && t.x == s.x && t.y == s.y && t.flags == s.flags && t.interupts == s.interupts
  {
    var f := ReadWord(s, m);
    PushReturn(f.state).(pc := f.value)
  }

  /**
   * `RTS` as written: both `pop` calls read the same byte b (SP never
   * moves), so PC becomes (b << 8) + b and SP is unchanged.
   */
  function Rts(s: State): (t: State)
    ensures t.pc == 0x101 * Pop(s) as int
    ensures t == s.(pc := t.pc)
  {
    s.(pc := Pop(s) as int * 0x100 + Pop(s) as int)
  }

  /**
   * `RTI` as written: the status byte and both halves of PC come from the
   * same stack byte b, so Flags becomes b, PC becomes (b << 8) | b, and SP
   * is unchanged.
   */
  function Rti(s: State): (t: State)
    ensures t.flags == Pop(s) && t.pc == 0x101 * Pop(s) as int
    ensures t == s.(pc := t.pc, flags := t.flags)
  {
    var u := s.(flags := Pop(s));
    u.(pc := Word(Pop(u), Pop(u)))
  }

  // ------------------------------------------------------------------
  // Stack instructions and BRK
  // ------------------------------------------------------------------

  /** `PHA`: pushes A. */
  function Pha(s: State): (t: State)
    ensures t == Push(s, s.a)
    ensures t.a == s.a && t.flags == s.flags && t.pc == s.pc
  {
    Push(s, s.a)
  }

  /** `PHP`: pushes the status byte. */
  function Php(s: State): (t: State)
    ensures t == Push(s, s.flags)
    ensures t.a == s.a && t.flags == s.flags && t.pc == s.pc
  {
    Push(s, s.flags)
  }

  /** `PLA`: A takes the popped byte, N and Z follow it; SP does not move. */
  function Pla(s: State): (t: State)
    ensures t.a == Pop(s) && NZFrom(s.flags, t.flags, t.a)
    ensures t.sp == s.sp && t == s.(a := t.a, flags := t.flags)
  {
    var v := Pop(s);
    s.(a := v, flags := Donz(s.flags, v))
  }

  /** `PLP`: the status byte takes the popped byte; SP does not move. */
  function Plp(s: State): (t: State)
    ensures t.flags == Pop(s) && t.sp == s.sp && t == s.(flags := t.flags)
  {
    s.(flags := Pop(s))
  }

  /**
   * `BRK` as written: sets bit 1 of the pending-interrupt byte, advances
   * PC by two, pushes `PC & 0xf`, `PC >> 8` and the status byte, then sets
   * B. PC is not loaded from a vector.
   */
  function Brk(s: State): State
  {
    var u := PushReturn(s.(interupts := s.interupts | 2));
    var u3 := Push(u, u.flags);
    u3.(flags := SetFlag(u3.flags, B))
  }

  /**
   * `BRK` as written: the stack receives the low nibble of the return
   * address, then its high byte, then the status byte without B; SP drops
   * by three, PC is the return address, B and bit 1 of the interrupt lines
   * are set, and A, X and Y are kept.
   */
  lemma BrkEffect(s: State)
    ensures var t := Brk(s); var ret := Next(s.pc, 2);
      && t.bus == Push(Push(Push(s, LowNibble(ret)), HighByte(ret)), s.flags).bus
      && t.sp == s.sp - 3
      && t.pc == ret
      && t.flags == s.flags | B && t.interupts == s.interupts | 2
      && t.a == s.a && t.x == s.x && t.y == s.y
  {
  }

  // ------------------------------------------------------------------
  // Dispatch
  // ------------------------------------------------------------------

  /** One template instantiation of the opcode table, without its cycle count. */
  datatype Instr =
    | Nop
    | Brk_ | Php_ | Plp_ | Pha_ | Pla_ | Rti_ | Rts_
    | Bpl_(Address) | Bmi_(Address) | Bvc_(Address) | Bvs_(Address)
    | Bcc_(Address) | Bcs_(Address) | Bne_(Address) | Beq_(Address)
    | Jmp_(Address) | Jsr_(Address)
    | Clc_ | Sec_ | Cli_ | Sei_ | Clv_ | Cld_ | Sed_
    | Ora_(Operand) | And_(Operand) | Eor_(Operand) | Adc_(Operand) | Sbc_(Operand)
    | Cmp_(Operand) | Cpx_(Operand) | Cpy_(Operand) | Bit_(Operand)
    | Lda_(Operand) | Ldx_(Operand) | Ldy_(Operand)
    | Sta_(Target) | Stx_(Target) | Sty_(Target)
    | Asl_(Operand, Target) | Lsr_(Operand, Target) | Rol_(Operand, Target) | Ror_(Operand, Target)
    | Inc_(Operand, Target) | Dec_(Operand, Target)
    | Inx_ | Iny_ | Dex_ | Dey_
    | Tax_ | Tay_ | Txa_ | Tya_ | Tsx_ | Txs_

  /** A table entry: the handler and its `clockcycles` template argument. */
  datatype Entry = Entry(instr: Instr, cycles: nat)

  /** What a handler call ends in: its cycle count, or the endless loop of `BCC`. */
  datatype Status = Cycles(n: nat) | Hang

  datatype Outcome = Outcome(state: State, status: Status)

  /** `BCC` spins forever when PC ends below 0x4000. */
  predicate BccHangs(t: State)
  {
    t.pc < 0x4000
  }

  /** The handler of a table entry. `nop<n>`, defined or not, changes nothing. */
  function Run(s: State, i: Instr): State
  {
    match i
    case Nop => s
    case Brk_ => Brk(s)
    case Php_ => Php(s)
    case Plp_ => Plp(s)
    case Pha_ => Pha(s)
    case Pla_ => Pla(s)
    case Rti_ => Rti(s)
    case Rts_ => Rts(s)
    case Bpl_(m) => Bpl(s, m)
    case Bmi_(m) => Bmi(s, m)
    case Bvc_(m) => Bvc(s, m)
    case Bvs_(m) => Bvs(s, m)
    case Bcc_(m) => Bcc(s, m)
    case Bcs_(m) => Bcs(s, m)
    case Bne_(m) => Bne(s, m)
    case Beq_(m) => Beq(s, m)
    case Jmp_(m) => Jmp(s, m)
    case Jsr_(m) => Jsr(s, m)
    case Clc_ => Clc(s)
    case Sec_ => Sec(s)
    case Cli_ => Cli(s)
    case Sei_ => Sei(s)
    case Clv_ => Clv(s)
    case Cld_ => Cld(s)
    case Sed_ => Sed(s)
    case Ora_(r) => Ora(s, r)
    case And_(r) => And(s, r)
    case Eor_(r) => Eor(s, r)
    case Adc_(r) => Adc(s, r)
    case Sbc_(r) => Sbc(s, r)
    case Cmp_(r) => Cmp(s, r)
    case Cpx_(r) => Cpx(s, r)
    case Cpy_(r) => Cpy(s, r)
    case Bit_(r) => Bit(s, r)
    case Lda_(r) => Lda(s, r)
    case Ldx_(r) => Ldx(s, r)
    case Ldy_(r) => Ldy(s, r)
    case Sta_(w) => Sta(s, w)
    case Stx_(w) => Stx(s, w)
    case Sty_(w) => Sty(s, w)
    case Asl_(r, w) => Asl(s, r, w)
    case Lsr_(r, w) => Lsr(s, r, w)
    case Rol_(r, w) => Rol(s, r, w)
    case Ror_(r, w) => Ror(s, r, w)
    case Inc_(r, w) => Inc(s, r, w)
    case Dec_(r, w) => Dec(s, r, w)
    case Inx_ => Inx(s)
    case Iny_ => Iny(s)
    case Dex_ => Dex(s)
    case Dey_ => Dey(s)
    case Tax_ => Tax(s)
    case Tay_ => Tay(s)
    case Txa_ => Txa(s)
    case Tya_ => Tya(s)
    case Tsx_ => Tsx(s)
    case Txs_ => Txs(s)
  }

  /**
   * Calling a table entry: the handler's new state, and the entry's cycle
   * count, except that `BCC` never returns when it leaves PC below 0x4000.
   */
  function Exec(s: State, e: Entry): Outcome
  {
    var t := Run(s, e.instr);
    if e.instr.Bcc_? && BccHangs(t) then Outcome(t, Hang) else Outcome(t, Cycles(e.cycles))
  }
}
