/**
 * The CPU record of nesulator3/cpu.cpp as a value, with the stack
 * primitives (`push`, `pop`) and every addressing-mode resolver as pure
 * functions of it. A resolver that reads its operand returns the operand
 * together with the state after it (PC advanced); a write resolver returns
 * the state after the write.
 *
 * The operand bytes of an instruction are fetched at PC and PC + 1, where
 * PC already points past the opcode.
 */
module Machine {
  import opened Bits
  import opened Flags
  import Bus

  /**
   * Registers, status byte, pending-interrupt byte and the images of the
   * registered devices in registration order.
   */
  datatype State = State(
    a: bv8, x: bv8, y: bv8, sp: bv8,
    pc: u16,
    flags: bv8, interupts: bv8,
    bus: seq<Bus.DeviceImage>)

  /** `basicRead` on the state's bus. */
  function Peek(s: State, address: u16): bv8
  {
    Bus.Read(s.bus, address)
  }

  /** `basicWrite` on the state's bus; the registers are not touched. */
  function Poke(s: State, address: u16, value: bv8): State
  {
    s.(bus := Bus.Write(s.bus, address, value))
  }

  /** `pc + n` stored back into a `uint16_t`. */
  function Next(pc: u16, n: int): u16
  {
    Wrap16(pc + n)
  }

  // ------------------------------------------------------------------
  // Stack primitives
  // ------------------------------------------------------------------

  /** Address of the stack slot that SP designates. */
  function StackSlot(sp: bv8): (address: u16)
    ensures 0x100 <= address < 0x200 && address % 0x100 == sp as int
  {
    0x100 + sp as int
  }

  /**
   * `push`: writes `value` at 0x0100 + SP (the old SP) and then stores
   * SP - 1 (wrapping in 8 bits) into SP; nothing else changes.
   */
  function Push(s: State, value: bv8): (t: State)
    ensures t.sp == s.sp - 1
    ensures t.bus == Bus.Write(s.bus, StackSlot(s.sp), value)
    ensures t == s.(sp := t.sp, bus := t.bus)
  {
    Poke(s, StackSlot(s.sp), value).(sp := s.sp - 1)
  }

  /**
   * `pop`: the CPU record is passed by value, so the increment of SP
   * happens on a copy. The byte returned is the one at
   * 0x0100 + (SP + 1), the sum wrapping in 8 bits, and the caller's state does not change.
   */
  function Pop(s: State): (value: bv8)
    ensures value == Peek(s, 0x100 + (s.sp + 1) as int)
  {
    Peek(s, StackSlot(s.sp + 1))
  }

  // ------------------------------------------------------------------
  // Addressing modes
  // ------------------------------------------------------------------

  /** Read primitives of the source (`imm`, `accRead`, `zpgRead`, ...). */
  datatype Operand = Imm | Acc | Zpg | Zpgx | Zpgy | Abs | Absx | Absy | Ind | Xind | Indy

  /** Write primitives of the source (`accWrite`, `zpgWrite`, ...): there is no immediate write. */
  type Target = m: Operand | !m.Imm? witness Acc

  /** 16-bit read primitives of the source: `rel`, `abs16`, `ind16`. */
  datatype Address = Rel | Abs16 | Ind16

  /** An operand and the state after fetching it. */
  datatype Fetched = Fetched(value: bv8, state: State)

  /** A 16-bit operand and the state after fetching it. */
  datatype FetchedWord = FetchedWord(value: u16, state: State)

  /**
   * `basicRead(address) | (basicRead(address + 1) << 8)`: the little-endian
   * word at `address`, its second byte read at `address + 1` truncated to
   * 16 bits.
   */
  function WordAt(s: State, address: u16): u16
  {
    Word(Peek(s, address), Peek(s, Next(address, 1)))
  }

  /** The little-endian operand word at PC. */
  function OperandWord(s: State): u16
  {
    WordAt(s, s.pc)
  }

  /** A C integer stored into a `uint8_t` and used as an address. */
  function ZeroPage(v: int): (address: u16)
    ensures address < 0x100 && address == v % 0x100
  {
    v % 0x100
  }

  /** Zero-page address: the operand byte. */
  function ZpgAddress(s: State): u16
  {
    Peek(s, s.pc) as int
  }

  /** Zero-page address indexed by X, truncated to `uint8_t`. */
  function ZpgxAddress(s: State): u16
  {
    (Peek(s, s.pc) as int + s.x as int) % 0x100
  }

  /** Zero-page address indexed by Y, truncated to `uint8_t`. */
  function ZpgyAddress(s: State): u16
  {
    (Peek(s, s.pc) as int + s.y as int) % 0x100
  }

  /** Absolute address indexed by X, truncated to `uint16_t`. */
  function AbsxAddress(s: State): u16
  {
    Wrap16(OperandWord(s) + s.x as int)
  }

  /** Absolute address indexed by Y, truncated to `uint16_t`. */
  function AbsyAddress(s: State): u16
  {
    Wrap16(OperandWord(s) + s.y as int)
  }

  /**
   * `indRead`/`indWrite`/`ind16`: the little-endian pointer stored at the
   * operand word (its second byte at operand + 1, truncated to 16 bits).
   */
  function IndAddress(s: State): u16
  {
    WordAt(s, OperandWord(s))
  }

  /**
   * `xindRead`/`xindWrite`: the operand word plus X is stored into a
   * `uint8_t`, which keeps (low operand byte + X) mod 256; the pointer is
   * read at that byte and at that byte + 1 (which may be 0x100).
   */
  function XindAddress(s: State): u16
  {
    WordAt(s, ZeroPage(OperandWord(s) + s.x as int))
  }

  /**
   * `indyRead`/`indyWrite`: the operand word is stored into a `uint8_t`
   * (its low byte), and the effective address is
   * `(uint8_t)(lo | ((hi << 8) + Y))` where lo and hi are the bytes at
   * that zero-page address and the next one: in C `+` binds tighter than
   * `|`, and the cast keeps only the low byte.
   */
  function IndyAddress(s: State): (address: u16)
    ensures address == (Peek(s, OperandWord(s) % 0x100) | s.y) as int
  {
    var zp := OperandWord(s) % 0x100;
    var lo := Peek(s, zp);
    var hi := Peek(s, zp + 1);
    (((lo as bv16) | (((hi as bv16) << 8) + s.y as bv16)) & 0xFF) as bv8 as int
  }

  /** `imm`: the byte at PC; PC advances by one. */
  function ImmRead(s: State): (r: Fetched)
    ensures r.value == Peek(s, s.pc) && r.state == s.(pc := Next(s.pc, 1))
  {
    Fetched(Peek(s, s.pc), s.(pc := Next(s.pc, 1)))
  }

  /** `accRead`: the accumulator; PC does not move. */
  function AccRead(s: State): (r: Fetched)
    ensures r.value == s.a && r.state == s
  {
    Fetched(s.a, s)
  }

  /** `zpgRead`: the byte at zero-page address `operand`; PC advances by one. */
  function ZpgRead(s: State): (r: Fetched)
    ensures r.value == Peek(s, Peek(s, s.pc) as int) && r.state == s.(pc := Next(s.pc, 1))
  {
    Fetched(Peek(s, ZpgAddress(s)), s.(pc := Next(s.pc, 1)))
  }

  /** `zpgxRead`: the byte at (operand + X) mod 256; PC advances by one. */
  function ZpgxRead(s: State): (r: Fetched)
    ensures r.value == Peek(s, (Peek(s, s.pc) as int + s.x as int) % 0x100)
    ensures r.state == s.(pc := Next(s.pc, 1))
  {
    Fetched(Peek(s, ZpgxAddress(s)), s.(pc := Next(s.pc, 1)))
  }

  /** `zpgyRead`: the byte at (operand + Y) mod 256; PC advances by one. */
  function ZpgyRead(s: State): (r: Fetched)
    ensures r.value == Peek(s, (Peek(s, s.pc) as int + s.y as int) % 0x100)
    ensures r.state == s.(pc := Next(s.pc, 1))
  {
    Fetched(Peek(s, ZpgyAddress(s)), s.(pc := Next(s.pc, 1)))
  }

  /** `absRead`: the byte at lo | hi << 8; PC advances by two. */
  function AbsRead(s: State): (r: Fetched)
    ensures r.value == Peek(s, Peek(s, s.pc) as int + 0x100 * Peek(s, (s.pc + 1) % 0x1_0000) as int)
    ensures r.state == s.(pc := (s.pc + 2) % 0x1_0000)
  {
    Fetched(Peek(s, OperandWord(s)), s.(pc := Next(s.pc, 2)))
  }

  /** `absxRead`: the byte at (lo | hi << 8) + X mod 65536; PC advances by two. */
  function AbsxRead(s: State): (r: Fetched)
    ensures r.value == Peek(s, (OperandWord(s) + s.x as int) % 0x1_0000)
    ensures r.state == s.(pc := (s.pc + 2) % 0x1_0000)
  {
    Fetched(Peek(s, AbsxAddress(s)), s.(pc := Next(s.pc, 2)))
  }

  /** `absyRead`: the byte at (lo | hi << 8) + Y mod 65536; PC advances by two. */
  function AbsyRead(s: State): (r: Fetched)
    ensures r.value == Peek(s, (OperandWord(s) + s.y as int) % 0x1_0000)
    ensures r.state == s.(pc := (s.pc + 2) % 0x1_0000)
  {
    Fetched(Peek(s, AbsyAddress(s)), s.(pc := Next(s.pc, 2)))
  }

  /** `indRead`: the byte at the pointer stored at the operand word; PC advances by two. */
  function IndRead(s: State): (r: Fetched)
    ensures r.value == Peek(s, IndAddress(s)) && r.state == s.(pc := (s.pc + 2) % 0x1_0000)
  {
    Fetched(Peek(s, IndAddress(s)), s.(pc := Next(s.pc, 2)))
  }

  /** `xindRead`: two operand bytes are consumed; PC advances by two. */
  function XindRead(s: State): (r: Fetched)
    ensures r.value == Peek(s, XindAddress(s)) && r.state == s.(pc := (s.pc + 2) % 0x1_0000)
  {
    Fetched(Peek(s, XindAddress(s)), s.(pc := Next(s.pc, 2)))
  }

  /** `indyRead`: the byte at zero-page address (ptr_lo | Y); PC advances by two. */
  function IndyRead(s: State): (r: Fetched)
    ensures r.value == Peek(s, (Peek(s, OperandWord(s) % 0x100) | s.y) as int)
    ensures r.state == s.(pc := (s.pc + 2) % 0x1_0000)
  {
    Fetched(Peek(s, IndyAddress(s)), s.(pc := Next(s.pc, 2)))
  }

  /** Number of bytes a read primitive moves PC by. */
  function ReadWidth(m: Operand): nat
  {
    match m
    case Acc => 0
    case Imm | Zpg | Zpgx | Zpgy => 1
    case Abs | Absx | Absy | Ind | Xind | Indy => 2
  }

  /**
   * The read primitive an instruction template was instantiated with. A
   * read changes nothing but PC, which moves by the mode's operand width.
   */
  function ReadOperand(s: State, m: Operand): (r: Fetched)
    ensures r.state == s.(pc := Next(s.pc, ReadWidth(m)))
  {
    match m
    case Imm => ImmRead(s)
    case Acc => AccRead(s)
    case Zpg => ZpgRead(s)
    case Zpgx => ZpgxRead(s)
    case Zpgy => ZpgyRead(s)
    case Abs => AbsRead(s)
    case Absx => AbsxRead(s)
    case Absy => AbsyRead(s)
    case Ind => IndRead(s)
    case Xind => XindRead(s)
    case Indy => IndyRead(s)
  }

  /** `accWrite`: the accumulator takes the value; nothing else changes. */
  function AccWrite(s: State, value: bv8): (t: State)
    ensures t == s.(a := value)
  {
    s.(a := value)
  }

  /** `zpgWrite`: writes at zero-page address `operand`; PC advances by one. */
  function ZpgWrite(s: State, value: bv8): (t: State)
    ensures t == Poke(s, Peek(s, s.pc) as int, value).(pc := Next(s.pc, 1))
  {
    Poke(s, ZpgAddress(s), value).(pc := Next(s.pc, 1))
  }

  /** `zpgxWrite`: writes at (operand + X) mod 256; PC advances by one. */
  function ZpgxWrite(s: State, value: bv8): (t: State)
    ensures t == Poke(s, (Peek(s, s.pc) as int + s.x as int) % 0x100, value).(pc := Next(s.pc, 1))
  {
    Poke(s, ZpgxAddress(s), value).(pc := Next(s.pc, 1))
  }

  /** `zpgyWrite`: writes at (operand + Y) mod 256; PC advances by one. */
  function ZpgyWrite(s: State, value: bv8): (t: State)
    ensures t == Poke(s, (Peek(s, s.pc) as int + s.y as int) % 0x100, value).(pc := Next(s.pc, 1))
  {
    Poke(s, ZpgyAddress(s), value).(pc := Next(s.pc, 1))
  }

  /** `absWrite`: writes at lo | hi << 8; PC advances by two. */
  function AbsWrite(s: State, value: bv8): (t: State)
    ensures t == Poke(s, OperandWord(s), value).(pc := (s.pc + 2) % 0x1_0000)
  {
    Poke(s, OperandWord(s), value).(pc := Next(s.pc, 2))
  }

  /** `absxWrite`: writes at (lo | hi << 8) + X mod 65536; PC advances by two. */
  function AbsxWrite(s: State, value: bv8): (t: State)
    ensures t.bus == Bus.Write(s.bus, Wrap16(OperandWord(s) + s.x as int), value)
    ensures t == s.(pc := Next(s.pc, 2), bus := t.bus)
  {
    Poke(s, AbsxAddress(s), value).(pc := Next(s.pc, 2))
  }

  /** `absyWrite`: writes at (lo | hi << 8) + Y mod 65536; PC advances by two. */
  function AbsyWrite(s: State, value: bv8): (t: State)
    ensures t.bus == Bus.Write(s.bus, Wrap16(OperandWord(s) + s.y as int), value)
    ensures t == s.(pc := Next(s.pc, 2), bus := t.bus)
  {
    Poke(s, AbsyAddress(s), value).(pc := Next(s.pc, 2))
  }

  /** `indWrite`: writes at the pointer stored at the operand word; PC advances by two. */
  function IndWrite(s: State, value: bv8): (t: State)
    ensures t == Poke(s, IndAddress(s), value).(pc := (s.pc + 2) % 0x1_0000)
  {
    Poke(s, IndAddress(s), value).(pc := Next(s.pc, 2))
  }

  /** `xindWrite`: writes at the (zero page + X) pointer; PC advances by two. */
  function XindWrite(s: State, value: bv8): (t: State)
    ensures t == Poke(s, XindAddress(s), value).(pc := (s.pc + 2) % 0x1_0000)
  {
    Poke(s, XindAddress(s), value).(pc := Next(s.pc, 2))
  }

  /** `indyWrite`: writes at zero-page address (ptr_lo | Y); PC advances by one only. */
  function IndyWrite(s: State, value: bv8): (t: State)
    ensures t == Poke(s, (Peek(s, OperandWord(s) % 0x100) | s.y) as int, value).(pc := Next(s.pc, 1))
  {
    Poke(s, IndyAddress(s), value).(pc := Next(s.pc, 1))
  }

  /** Number of bytes a write primitive moves PC by (`indyWrite` moves it by one). */
  function WriteWidth(m: Target): nat
  {
    match m
    case Acc => 0
    case Zpg | Zpgx | Zpgy | Indy => 1
    case Abs | Absx | Absy | Ind | Xind => 2
  }

  /**
   * The write primitive an instruction template was instantiated with. PC
   * moves by the mode's width; the accumulator mode changes A only, every
   * other mode changes the bus only.
   */
  function WriteOperand(s: State, m: Target, value: bv8): (t: State)
    ensures t.pc == Next(s.pc, WriteWidth(m))
    ensures m == Acc ==> t == s.(a := value)
    ensures m != Acc ==> t == s.(pc := t.pc, bus := t.bus)
    ensures t.flags == s.flags && t.sp == s.sp && t.x == s.x && t.y == s.y && t.interupts == s.interupts
  {
    match m
    case Acc => AccWrite(s, value)
    case Zpg => ZpgWrite(s, value)
    case Zpgx => ZpgxWrite(s, value)
    case Zpgy => ZpgyWrite(s, value)
    case Abs => AbsWrite(s, value)
    case Absx => AbsxWrite(s, value)
    case Absy => AbsyWrite(s, value)
    case Ind => IndWrite(s, value)
    case Xind => XindWrite(s, value)
    case Indy => IndyWrite(s, value)
  }

  /** The bus address a write primitive other than `accWrite` stores at, fetched at PC. */
  function WriteAddress(s: State, m: Target): u16
    requires m != Acc
  {
    match m
    case Zpg => ZpgAddress(s)
    case Zpgx => ZpgxAddress(s)
    case Zpgy => ZpgyAddress(s)
    case Abs => OperandWord(s)
    case Absx => AbsxAddress(s)
    case Absy => AbsyAddress(s)
    case Ind => IndAddress(s)
    case Xind => XindAddress(s)
    case Indy => IndyAddress(s)
  }

  /** A memory-mode write primitive stores `value` at its address and nowhere else. */
  lemma WriteOperandBus(s: State, m: Target, value: bv8)
    requires m != Acc
    ensures WriteOperand(s, m, value).bus == Bus.Write(s.bus, WriteAddress(s, m), value)
  {
    match m {
      case Zpg =>
      case Zpgx =>
      case Zpgy =>
      case Abs =>
      case Absx =>
      case Absy =>
      case Ind =>
      case Xind =>
      case Indy =>
    }
  }

  /**
   * `rel`: the offset byte at PC is read as a signed byte and added to the
   * PC that follows it; the sum is truncated to 16 bits. PC advances by one.
   */
  function RelRead(s: State): (r: FetchedWord)
    ensures r.value == Wrap16(s.pc + 1 + Signed(Peek(s, s.pc)))
    ensures r.state == s.(pc := Next(s.pc, 1))
  {
    var after := Next(s.pc, 1);
    FetchedWord(Wrap16(Signed(Peek(s, s.pc)) + after), s.(pc := after))
  }

  /** `abs16`: the operand word; PC does not move. */
  function Abs16Read(s: State): (r: FetchedWord)
    ensures r.value == Peek(s, s.pc) as int + 0x100 * Peek(s, (s.pc + 1) % 0x1_0000) as int
    ensures r.state == s
  {
    FetchedWord(OperandWord(s), s)
  }

  /** `ind16`: the pointer stored at the operand word; PC does not move. */
  function Ind16Read(s: State): (r: FetchedWord)
    ensures r.value == IndAddress(s) && r.state == s
  {
    FetchedWord(IndAddress(s), s)
  }

  /** The 16-bit read primitive a branch or jump template was instantiated with. */
  function ReadWord(s: State, m: Address): (r: FetchedWord)
    ensures r.state == s.(pc := if m == Rel then Next(s.pc, 1) else s.pc)
  {
    match m
    case Rel => RelRead(s)
    case Abs16 => Abs16Read(s)
    case Ind16 => Ind16Read(s)
  }
}
