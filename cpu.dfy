/**
 * The mutable CPU record of nesulator3/cpu.cpp and the functions that
 * update it in place: `basicRead`/`basicWrite` over the device array,
 * `push`/`pop`, every addressing-mode resolver and every instruction
 * template. Each method is proved against the pure semantics of modules
 * Machine and Instructions: its postcondition says that the CPU's value
 * after the call is the pure function applied to its value before.
 */
module J6502 {
  import opened Bits
  import opened Flags
  import Bus
  import opened Machine
  import opened Instructions


  /**
   * A registered device: its window [start, start + length) on the bus
   * and the storage its `readfun`/`writefun` act on. The functions
   * themselves are external; the model takes `data` to hold `length`
   * bytes, `readfun` to return the byte at an offset and `writefun` to
   * store one.
   */
  class Device {
    const start: u16
    const length: u16
    const data: array<bv8>

    /** The storage has room for the whole window. */
    predicate Valid()
    {
      data.Length == length
    }

    /** The device as a value. */
    ghost function Image(): Bus.DeviceImage
      reads data
    {
      Bus.DeviceImage(start, length, data[..])
    }

    /** A device whose storage holds `contents`. */
    constructor (start: u16, contents: seq<bv8>)
      requires |contents| < 0x1_0000
      ensures Valid() && this.start == start && data[..] == contents
      ensures fresh(data)
    {
      this.start := start;
      this.length := |contents|;
      data := new bv8[|contents|](i requires 0 <= i < |contents| => contents[i]);
    }

    /** `readfun(data, offset)`. */
    method ReadFun(offset: int) returns (v: bv8)
      requires Valid() && 0 <= offset < length
      ensures v == data[offset]
    {
      v := data[offset];
    }

    /** `writefun(data, offset, value)`. */
    method WriteFun(offset: int, value: bv8)
      requires Valid() && 0 <= offset < length
      modifies data
      ensures data[..] == old(data[..])[offset := value]
    {
      data[offset] := value;
    }
  }

  /** The CPU record; `devices` lists the registered devices in registration order. */
  class Cpu {
    var a: bv8
    var x: bv8
    var y: bv8
    var sp: bv8
    var pc: u16
    var flags: bv8
    var interupts: bv8
    const devices: seq<Device>

    /** Every device is valid and no two devices share storage. */
    predicate Valid()
    {
      && (forall i :: 0 <= i < |devices| ==> devices[i].Valid())
      && (forall i, j :: 0 <= i < j < |devices| ==> devices[i].data != devices[j].data)
    }

    /** The storage of all devices: what a bus write may change. */
    function Storage(): set<array<bv8>>
    {
      set i | 0 <= i < |devices| :: devices[i].data
    }

    /** The devices as values, in registration order. */
    ghost function Images(): (r: seq<Bus.DeviceImage>)
      reads Storage()
      ensures |r| == |devices|
      ensures forall i :: 0 <= i < |devices| ==> r[i] == devices[i].Image()
    {
      seq(|devices|, i reads Storage() requires 0 <= i < |devices| => devices[i].Image())
    }

    /** The CPU as a value of the pure semantics. */
    ghost function Model(): State
      reads this, Storage()
    {
      State(a, x, y, sp, pc, flags, interupts, Images())
    }

    /** A CPU over `devices`, which must be valid and must not share storage. */
    constructor (a: bv8, x: bv8, y: bv8, sp: bv8, pc: u16, flags: bv8, interupts: bv8, devices: seq<Device>)
      requires forall i :: 0 <= i < |devices| ==> devices[i].Valid()
      requires forall i, j :: 0 <= i < j < |devices| ==> devices[i].data != devices[j].data
      ensures this.devices == devices
      ensures Valid() && Model() == State(a, x, y, sp, pc, flags, interupts, Images())
    {
      this.a, this.x, this.y, this.sp := a, x, y, sp;
      this.pc, this.flags, this.interupts := pc, flags, interupts;
      this.devices := devices;
    }

    // ----------------------------------------------------------------
    // Bus and stack
    // ----------------------------------------------------------------

    /**
     * `basicRead`: scans the devices in order and returns the byte of the
     * first one whose window covers `address`, or 0.
     */
    method BasicRead(address: u16) returns (v: bv8)
      requires Valid()
      ensures v == Bus.Read(Images(), address)
    {
      ghost var ds := Images();
      var i := 0;
      while i < |devices|
        invariant 0 <= i <= |devices|
        invariant Bus.Read(ds, address) == Bus.Read(ds[i..], address)
      {
        var dev := devices[i];
        assert ds[i..][0] == dev.Image();
        if dev.start <= address && dev.start + dev.length > address {
          v := dev.ReadFun(address - dev.start);
          assert Images() == ds;
          return;
        }
        assert ds[i..][1..] == ds[i + 1..];
        i := i + 1;
      }
      v := 0;
    }

    /**
     * `basicWrite`: every device whose window covers `address` stores
     * `value`; the scan does not stop at the first match.
     */
    method BasicWrite(address: u16, value: bv8)
      requires Valid()
      modifies Storage()
      ensures Images() == Bus.Write(old(Images()), address, value)
    {
      var i := 0;
      while i < |devices|
        invariant 0 <= i <= |devices|
        invariant forall k :: 0 <= k < i ==>
                    devices[k].Image() == Bus.WriteOne(old(devices[k].Image()), address, value)
        invariant forall k :: i <= k < |devices| ==> devices[k].data[..] == old(devices[k].data[..])
      {
        var dev := devices[i];
        if dev.start <= address && dev.start + dev.length > address {
          dev.WriteFun(address - dev.start, value);
        }
        i := i + 1;
      }
    }

    /** `push`: the byte goes to 0x0100 + SP, then SP decreases by one. */
    method Push(value: bv8)
      requires Valid()
      modifies this, Storage()
      ensures Model() == Machine.Push(old(Model()), value)
    {
      BasicWrite(StackSlot(sp), value);
      assert Images() == Bus.Write(old(Images()), StackSlot(old(sp)), value);
      sp := sp - 1;
      assert Images() == Bus.Write(old(Images()), StackSlot(old(sp)), value);
    }

    /**
     * `pop`: the record is taken by value, so the increment of SP is lost;
     * the byte at 0x0100 + (SP + 1) is returned and nothing changes.
     */
    method Pop() returns (v: bv8)
      requires Valid()
      ensures v == Machine.Pop(Model())
    {
      var copy := sp + 1;
      v := BasicRead(StackSlot(copy));
    }

    /** `basicRead(PC) | (basicRead(PC + 1) << 8)`. */
    method OperandWord() returns (w: u16)
      requires Valid()
      ensures w == Machine.OperandWord(Model())
    {
      ghost var s := Model();
      var lo := BasicRead(pc);
      assert Model() == s;
      var hi := BasicRead(Next(pc, 1));
      assert Model() == s;
      w := Word(lo, hi);
    }

    // ----------------------------------------------------------------
    // Read primitives: each returns the operand and advances PC
    // ----------------------------------------------------------------

    /** `imm`. */
    method Imm() returns (v: bv8)
      requires Valid()
      modifies this
      ensures var r := Machine.ImmRead(old(Model())); v == r.value && Model() == r.state
    {
      ghost var s := Model();
      v := BasicRead(pc);
      assert Model() == s;
      pc := Next(pc, 1);
      assert Images() == s.bus;
    }

    /** `accRead`. */
    method AccRead() returns (v: bv8)
      requires Valid()
      ensures v == Machine.AccRead(Model()).value
    {
      v := a;
    }

    /** `zpgRead`. */
    method ZpgRead() returns (v: bv8)
      requires Valid()
      modifies this
      ensures var r := Machine.ZpgRead(old(Model())); v == r.value && Model() == r.state
    {
      ghost var s := Model();
      var address := BasicRead(pc);
      assert Model() == s;
      v := BasicRead(address as int);
      assert Model() == s;
      pc := Next(pc, 1);
      assert Images() == s.bus;
    }

    /** `zpgxRead`. */
    method ZpgxRead() returns (v: bv8)
      requires Valid()
      modifies this
      ensures var r := Machine.ZpgxRead(old(Model())); v == r.value && Model() == r.state
    {
      ghost var s := Model();
      var operand := BasicRead(pc);
      assert Model() == s;
      v := BasicRead((operand as int + x as int) % 0x100);
      assert Model() == s;
      pc := Next(pc, 1);
      assert Images() == s.bus;
    }

    /** `zpgyRead`. */
    method ZpgyRead() returns (v: bv8)
      requires Valid()
      modifies this
      ensures var r := Machine.ZpgyRead(old(Model())); v == r.value && Model() == r.state
    {
      ghost var s := Model();
      var operand := BasicRead(pc);
      assert Model() == s;
      v := BasicRead((operand as int + y as int) % 0x100);
      assert Model() == s;
      pc := Next(pc, 1);
      assert Images() == s.bus;
    }

    /** `absRead`. */
    method AbsRead() returns (v: bv8)
      requires Valid()
      modifies this
      ensures var r := Machine.AbsRead(old(Model())); v == r.value && Model() == r.state
    {
      ghost var s := Model();
      var address := OperandWord();
      assert Model() == s;
      v := BasicRead(address);
      assert Model() == s;
      pc := Next(pc, 2);
      assert Images() == s.bus;
    }

    /** `absxRead`. */
    method AbsxRead() returns (v: bv8)
      requires Valid()
      modifies this
      ensures var r := Machine.AbsxRead(old(Model())); v == r.value && Model() == r.state
    {
      ghost var s := Model();
      var base := OperandWord();
      assert Model() == s;
      v := BasicRead(Wrap16(base + x as int));
      assert Model() == s;
      pc := Next(pc, 2);
      assert Images() == s.bus;
    }

    /** `absyRead`. */
    method AbsyRead() returns (v: bv8)
      requires Valid()
      modifies this
      ensures var r := Machine.AbsyRead(old(Model())); v == r.value && Model() == r.state
    {
      ghost var s := Model();
      var base := OperandWord();
      assert Model() == s;
      v := BasicRead(Wrap16(base + y as int));
      assert Model() == s;
      pc := Next(pc, 2);
      assert Images() == s.bus;
    }

    /** `basicRead(address) | (basicRead(address + 1) << 8)`: a little-endian word on the bus. */
    method WordAt(address: u16) returns (w: u16)
      requires Valid()
      ensures w == Machine.WordAt(Model(), address)
    {
      ghost var s := Model();
      var lo := BasicRead(address);
      assert Model() == s;
      var hi := BasicRead(Next(address, 1));
      assert Model() == s;
      w := Word(lo, hi);
    }

    /** The pointer stored at the operand word, as `indRead`, `indWrite` and `ind16` fetch it. */
    method Pointer() returns (w: u16)
      requires Valid()
      ensures w == IndAddress(Model())
    {
      ghost var s := Model();
      var address := OperandWord();
      assert Model() == s;
      w := WordAt(address);
      assert Model() == s;
    }

    /** The zero-page pointer of `xindRead`/`xindWrite`. */
    method XindPointer() returns (w: u16)
      requires Valid()
      ensures w == XindAddress(Model())
    {
      ghost var s := Model();
      var operand := OperandWord();
      assert Model() == s;
      var address := ZeroPage(operand + x as int);
      w := WordAt(address);
      assert Model() == s;
    }

    /** The effective address of `indyRead`/`indyWrite`. */
    method IndyPointer() returns (w: u16)
      requires Valid()
      ensures w == IndyAddress(Model())
    {
      ghost var s := Model();
      var operand := OperandWord();
      assert Model() == s;
      var address := operand % 0x100;
      assert address == Machine.OperandWord(s) % 0x100;
      var lo := BasicRead(address);
      assert Model() == s;
      assert lo == Peek(s, address);
      var hi := BasicRead(address + 1);
      assert Model() == s;
      assert hi == Peek(s, address + 1);
      w := (((lo as bv16) | (((hi as bv16) << 8) + y as bv16)) & 0xFF) as bv8 as int;
    }

    /** `indRead`. */
    method IndRead() returns (v: bv8)
      requires Valid()
      modifies this
      ensures var r := Machine.IndRead(old(Model())); v == r.value && Model() == r.state
    {
      ghost var s := Model();
      var address := Pointer();
      assert Model() == s;
      v := BasicRead(address);
      assert Model() == s;
      pc := Next(pc, 2);
      assert Images() == s.bus;
    }

    /** `xindRead`. */
    method XindRead() returns (v: bv8)
      requires Valid()
      modifies this
      ensures var r := Machine.XindRead(old(Model())); v == r.value && Model() == r.state
    {
      ghost var s := Model();
      var address := XindPointer();
      assert Model() == s;
      v := BasicRead(address);
      assert Model() == s;
      pc := Next(pc, 2);
      assert Images() == s.bus;
    }

    /** `indyRead`. */
    method IndyRead() returns (v: bv8)
      requires Valid()
      modifies this
      ensures var r := Machine.IndyRead(old(Model())); v == r.value && Model() == r.state
    {
      ghost var s := Model();
      var address := IndyPointer();
      assert Model() == s;
      v := BasicRead(address);
      assert Model() == s;
      pc := Next(pc, 2);
      assert Images() == s.bus;
    }

    /** The read primitive a template was instantiated with. */
    method ReadPrim(r: Operand) returns (v: bv8)
      requires Valid()
      modifies this
      ensures var f := ReadOperand(old(Model()), r); v == f.value && Model() == f.state
    {
      match r
      case Imm => v := Imm();
      case Acc => v := AccRead();
      case Zpg => v := ZpgRead();
      case Zpgx => v := ZpgxRead();
      case Zpgy => v := ZpgyRead();
      case Abs => v := AbsRead();
      case Absx => v := AbsxRead();
      case Absy => v := AbsyRead();
      case Ind => v := IndRead();
      case Xind => v := XindRead();
      case Indy => v := IndyRead();
    }

    // ----------------------------------------------------------------
    // Write primitives: each stores the value and advances PC
    // ----------------------------------------------------------------

    /** `accWrite`. */
    method AccWrite(value: bv8)
      modifies this
      ensures Model() == Machine.AccWrite(old(Model()), value)
    {
      ghost var s := Model();
      a := value;
      assert Images() == s.bus;
    }

    /** The common tail of the write primitives: `basicWrite`, then `PC += width`. */
    method WriteAndAdvance(address: u16, value: bv8, width: int)
      requires Valid()
      modifies this, Storage()
      ensures Model() == Poke(old(Model()), address, value).(pc := Next(old(pc), width))
    {
      BasicWrite(address, value);
      ghost var bus := Images();
      pc := Next(pc, width);
      assert Images() == bus;
    }

    /** `zpgWrite`. */
    method ZpgWrite(value: bv8)
      requires Valid()
      modifies this, Storage()
      ensures Model() == Machine.ZpgWrite(old(Model()), value)
    {
      ghost var s := Model();
      var address := BasicRead(pc);
      assert Model() == s;
      WriteAndAdvance(address as int, value, 1);
    }

    /** `zpgxWrite`. */
    method ZpgxWrite(value: bv8)
      requires Valid()
      modifies this, Storage()
      ensures Model() == Machine.ZpgxWrite(old(Model()), value)
    {
      ghost var s := Model();
      var operand := BasicRead(pc);
      assert Model() == s;
      var address := (operand as int + x as int) % 0x100;
      assert address == ZpgxAddress(s);
      WriteAndAdvance(address, value, 1);
    }

    /** `zpgyWrite`. */
    method ZpgyWrite(value: bv8)
      requires Valid()
      modifies this, Storage()
      ensures Model() == Machine.ZpgyWrite(old(Model()), value)
    {
      ghost var s := Model();
      var operand := BasicRead(pc);
      assert Model() == s;
      var address := (operand as int + y as int) % 0x100;
      assert address == ZpgyAddress(s);
      WriteAndAdvance(address, value, 1);
    }

    /** `absWrite`. */
    method AbsWrite(value: bv8)
      requires Valid()
      modifies this, Storage()
      ensures Model() == Machine.AbsWrite(old(Model()), value)
    {
      ghost var s := Model();
      var address := OperandWord();
      assert Model() == s;
      WriteAndAdvance(address, value, 2);
    }

    /** `absxWrite`. */
    method AbsxWrite(value: bv8)
      requires Valid()
      modifies this, Storage()
      ensures Model() == Machine.AbsxWrite(old(Model()), value)
    {
      ghost var s := Model();
      var base := OperandWord();
      assert Model() == s;
      var address := Wrap16(base + x as int);
      assert address == AbsxAddress(s);
      WriteAndAdvance(address, value, 2);
    }

    /** `absyWrite`. */
    method AbsyWrite(value: bv8)
      requires Valid()
      modifies this, Storage()
      ensures Model() == Machine.AbsyWrite(old(Model()), value)
    {
      ghost var s := Model();
      var base := OperandWord();
      assert Model() == s;
      var address := Wrap16(base + y as int);
      assert address == AbsyAddress(s);
      WriteAndAdvance(address, value, 2);
    }

    /** `indWrite`. */
    method IndWrite(value: bv8)
      requires Valid()
      modifies this, Storage()
      ensures Model() == Machine.IndWrite(old(Model()), value)
    {
      ghost var s := Model();
      var address := Pointer();
      assert Model() == s;
      WriteAndAdvance(address, value, 2);
    }

    /** `xindWrite`. */
    method XindWrite(value: bv8)
      requires Valid()
      modifies this, Storage()
      ensures Model() == Machine.XindWrite(old(Model()), value)
    {
      ghost var s := Model();
      var address := XindPointer();
      assert Model() == s;
      WriteAndAdvance(address, value, 2);
    }

    /** `indyWrite`: PC advances by one only. */
    method IndyWrite(value: bv8)
      requires Valid()
      modifies this, Storage()
      ensures Model() == Machine.IndyWrite(old(Model()), value)
    {
      ghost var s := Model();
      var address := IndyPointer();
      assert Model() == s;
      WriteAndAdvance(address, value, 1);
    }

    /** The write primitive a template was instantiated with. */
    method WritePrim(w: Target, value: bv8)
      requires Valid()
      modifies this, Storage()
      ensures Model() == WriteOperand(old(Model()), w, value)
    {
      match w
      case Acc => AccWrite(value);
      case Zpg => ZpgWrite(value);
      case Zpgx => ZpgxWrite(value);
      case Zpgy => ZpgyWrite(value);
      case Abs => AbsWrite(value);
      case Absx => AbsxWrite(value);
      case Absy => AbsyWrite(value);
      case Ind => IndWrite(value);
      case Xind => XindWrite(value);
      case Indy => IndyWrite(value);
    }

    // ----------------------------------------------------------------
    // 16-bit primitives of the branch and jump templates
    // ----------------------------------------------------------------

    /** `rel`: the branch target; PC moves past the offset byte. */
    method Rel() returns (w: u16)
      requires Valid()
      modifies this
      ensures var r := RelRead(old(Model())); w == r.value && Model() == r.state
    {
      ghost var s := Model();
      var offset := BasicRead(pc);
      assert Model() == s;
      pc := Next(pc, 1);
      assert Images() == s.bus;
      w := Wrap16(Signed(offset) + pc);
    }

    /** `abs16`: the operand word; PC does not move. */
    method Abs16() returns (w: u16)
      requires Valid()
      ensures w == Abs16Read(Model()).value
    {
      w := OperandWord();
    }

    /** `ind16`: the pointer at the operand word; PC does not move. */
    method Ind16() returns (w: u16)
      requires Valid()
      ensures w == Ind16Read(Model()).value
    {
      w := Pointer();
    }

    /** The 16-bit primitive a template was instantiated with. */
    method ReadWordPrim(m: Address) returns (w: u16)
      requires Valid()
      modifies this
      ensures var f := ReadWord(old(Model()), m); w == f.value && Model() == f.state
    {
      ghost var s := Model();
      match m
      case Rel => w := Rel();
      case Abs16 => w := Abs16(); assert Model() == s;
      case Ind16 => w := Ind16(); assert Model() == s;
    }

    // ----------------------------------------------------------------
    // Instruction templates. PC already points past the opcode; the
    // cycle count a template returns is the table entry's (see Dispatch).
    // ----------------------------------------------------------------

    /** `CLC`. */
    method Clc()
      modifies this
      ensures Model() == Instructions.Clc(old(Model()))
    {
      ghost var s := Model();
      flags := UnsetFlag(flags, C);
      assert Images() == s.bus;
    }

    /** `SEC`. */
    method Sec()
      modifies this
      ensures Model() == Instructions.Sec(old(Model()))
    {
      ghost var s := Model();
      flags := SetFlag(flags, C);
      assert Images() == s.bus;
    }

    /** `CLI`. */
    method Cli()
      modifies this
      ensures Model() == Instructions.Cli(old(Model()))
    {
      ghost var s := Model();
      flags := UnsetFlag(flags, I);
      assert Images() == s.bus;
    }

    /** `SEI`. */
    method Sei()
      modifies this
      ensures Model() == Instructions.Sei(old(Model()))
    {
      ghost var s := Model();
      flags := SetFlag(flags, I);
      assert Images() == s.bus;
    }

    /** `CLV`. */
    method Clv()
      modifies this
      ensures Model() == Instructions.Clv(old(Model()))
    {
      ghost var s := Model();
      flags := UnsetFlag(flags, V);
      assert Images() == s.bus;
    }

    /** `CLD`. */
    method Cld()
      modifies this
      ensures Model() == Instructions.Cld(old(Model()))
    {
      ghost var s := Model();
      flags := UnsetFlag(flags, D);
      assert Images() == s.bus;
    }

    /** `SED`. */
    method Sed()
      modifies this
      ensures Model() == Instructions.Sed(old(Model()))
    {
      ghost var s := Model();
      flags := SetFlag(flags, D);
      assert Images() == s.bus;
    }

    /** `LDA`. */
    method Lda(r: Operand)
      requires Valid()
      modifies this
      ensures Model() == Instructions.Lda(old(Model()), r)
    {
      ghost var s := Model();
      var v := ReadPrim(r);
      assert Images() == s.bus;
      a := v;
      flags := Donz(flags, a);
      assert Images() == s.bus;
    }

    /** `LDX`. */
    method Ldx(r: Operand)
      requires Valid()
      modifies this
      ensures Model() == Instructions.Ldx(old(Model()), r)
    {
      ghost var s := Model();
      var v := ReadPrim(r);
      assert Images() == s.bus;
      x := v;
      flags := Donz(flags, x);
      assert Images() == s.bus;
    }

    /** `LDY`. */
    method Ldy(r: Operand)
      requires Valid()
      modifies this
      ensures Model() == Instructions.Ldy(old(Model()), r)
    {
      ghost var s := Model();
      var v := ReadPrim(r);
      assert Images() == s.bus;
      y := v;
      flags := Donz(flags, y);
      assert Images() == s.bus;
    }

    /** `STA`. */
    method Sta(w: Target)
      requires Valid()
      modifies this, Storage()
      ensures Model() == Instructions.Sta(old(Model()), w)
    {
      WritePrim(w, a);
    }

    /** `STX`. */
    method Stx(w: Target)
      requires Valid()
      modifies this, Storage()
      ensures Model() == Instructions.Stx(old(Model()), w)
    {
      WritePrim(w, x);
    }

    /** `STY`. */
    method Sty(w: Target)
      requires Valid()
      modifies this, Storage()
      ensures Model() == Instructions.Sty(old(Model()), w)
    {
      WritePrim(w, y);
    }

    /** `TAX`: `donz` is applied to A, which X now equals. */
    method Tax()
      modifies this
      ensures Model() == Instructions.Tax(old(Model()))
    {
      ghost var s := Model();
      x := a;
      flags := Donz(flags, a);
      assert Images() == s.bus;
    }

    /** `TAY`: `donz` is applied to A, which Y now equals. */
    method Tay()
      modifies this
      ensures Model() == Instructions.Tay(old(Model()))
    {
      ghost var s := Model();
      y := a;
      flags := Donz(flags, a);
      assert Images() == s.bus;
    }

    /** `TXA`. */
    method Txa()
      modifies this
      ensures Model() == Instructions.Txa(old(Model()))
    {
      ghost var s := Model();
      a := x;
      flags := Donz(flags, a);
      assert Images() == s.bus;
    }

    /** `TYA`. */
    method Tya()
      modifies this
      ensures Model() == Instructions.Tya(old(Model()))
    {
      ghost var s := Model();
      a := y;
      flags := Donz(flags, a);
      assert Images() == s.bus;
    }

    /** `TSX`. */
    method Tsx()
      modifies this
      ensures Model() == Instructions.Tsx(old(Model()))
    {
      ghost var s := Model();
      x := sp;
      flags := Donz(flags, x);
      assert Images() == s.bus;
    }

    /** `TXS`: the flags are not touched. */
    method Txs()
      modifies this
      ensures Model() == Instructions.Txs(old(Model()))
    {
      ghost var s := Model();
      sp := x;
      assert Images() == s.bus;
    }

    /** `INX`: `X++` on a `uint8_t`. */
    method Inx()
      modifies this
      ensures Model() == Instructions.Inx(old(Model()))
    {
      ghost var s := Model();
      x := x + 1;
      flags := Donz(flags, x);
      assert Images() == s.bus;
    }

    /** `INY`. */
    method Iny()
      modifies this
      ensures Model() == Instructions.Iny(old(Model()))
    {
      ghost var s := Model();
      y := y + 1;
      flags := Donz(flags, y);
      assert Images() == s.bus;
    }

    /** `DEX`: `X--` on a `uint8_t`. */
    method Dex()
      modifies this
      ensures Model() == Instructions.Dex(old(Model()))
    {
      ghost var s := Model();
      x := x - 1;
      flags := Donz(flags, x);
      assert Images() == s.bus;
    }

    /** `DEY`. */
    method Dey()
      modifies this
      ensures Model() == Instructions.Dey(old(Model()))
    {
      ghost var s := Model();
      y := y - 1;
      flags := Donz(flags, y);
      assert Images() == s.bus;
    }

    /** `INC`: the read primitive, then the write primitive; no flag changes. */
    method Inc(r: Operand, w: Target)
      requires Valid()
      modifies this, Storage()
      ensures Model() == Instructions.Inc(old(Model()), r, w)
    {
      var v := ReadPrim(r);
      WritePrim(w, v + 1);
    }

    /** `DEC`. */
    method Dec(r: Operand, w: Target)
      requires Valid()
      modifies this, Storage()
      ensures Model() == Instructions.Dec(old(Model()), r, w)
    {
      ghost var s := Model();
      var v := ReadPrim(r);
      ghost var f := ReadOperand(s, r);
      var value := v - 1;
      WritePrim(w, value);
      ghost var u := Model();
      assert u == WriteOperand(f.state, w, value);
      flags := Donz(flags, value);
      assert Images() == u.bus;
      assert Model() == u.(flags := Donz(u.flags, value));
    }

    /** `ORA`. */
    method Ora(r: Operand)
      requires Valid()
      modifies this
      ensures Model() == Instructions.Ora(old(Model()), r)
    {
      ghost var s := Model();
      var m := ReadPrim(r);
      assert Images() == s.bus;
      var v := a | m;
      a := v;
      flags := Donz(flags, v);
      assert Images() == s.bus;
    }

    /** `AND`. */
    method And(r: Operand)
      requires Valid()
      modifies this
      ensures Model() == Instructions.And(old(Model()), r)
    {
      ghost var s := Model();
      var m := ReadPrim(r);
      assert Images() == s.bus;
      var v := a & m;
      a := v;
      flags := Donz(flags, v);
      assert Images() == s.bus;
    }

    /** `EOR`: `A ^= operand`. */
    method Eor(r: Operand)
      requires Valid()
      modifies this
      ensures Model() == Instructions.Eor(old(Model()), r)
    {
      ghost var s := Model();
      var m := ReadPrim(r);
      assert Images() == s.bus;
      var v := a ^ m;
      a := v;
      flags := Donz(flags, v);
      assert Images() == s.bus;
    }

    /** `BIT`. */
    method Bit(r: Operand)
      requires Valid()
      modifies this
      ensures Model() == Instructions.Bit(old(Model()), r)
    {
      ghost var s := Model();
      var m := ReadPrim(r);
      assert Images() == s.bus;
      var res := a & m;
      flags := Donz(flags, res);
      flags := SetFlagTo(flags, V, res & 0x40 != 0);
      assert Images() == s.bus;
    }

    /** `ASL`: the shift is done on a `uint16_t`, its low byte is written. */
    method Asl(r: Operand, w: Target)
      requires Valid()
      modifies this, Storage()
      ensures Model() == Instructions.Asl(old(Model()), r, w)
    {
      var m := ReadPrim(r);
      var v := Widened(m);
      WritePrim(w, Low(v));
      ghost var bus := Images();
      flags := Donzc(flags, v);
      assert Images() == bus;
    }

    /** `LSR`. */
    method Lsr(r: Operand, w: Target)
      requires Valid()
      modifies this, Storage()
      ensures Model() == Instructions.Lsr(old(Model()), r, w)
    {
      var rval := ReadPrim(r);
      var wval := rval >> 1;
      WritePrim(w, wval);
      ghost var bus := Images();
      flags := ShiftRightStatus(flags, rval);
      assert Images() == bus;
    }

    /** `ROL`. */
    method Rol(r: Operand, w: Target)
      requires Valid()
      modifies this, Storage()
      ensures Model() == Instructions.Rol(old(Model()), r, w)
    {
      var v := ReadPrim(r);
      v := RotateLeft(v);
      WritePrim(w, v);
      ghost var bus := Images();
      flags := Donz(flags, v);
      flags := SetFlagTo(flags, C, v & 1 != 0);
      assert Images() == bus;
    }

    /** `ROR`. */
    method Ror(r: Operand, w: Target)
      requires Valid()
      modifies this, Storage()
      ensures Model() == Instructions.Ror(old(Model()), r, w)
    {
      var v := ReadPrim(r);
      v := RotateRight(v);
      WritePrim(w, v);
      ghost var bus := Images();
      flags := Donz(flags, v);
      flags := SetFlagTo(flags, C, v & 0x80 != 0);
      assert Images() == bus;
    }

    /** `ADC`. */
    method Adc(r: Operand)
      requires Valid()
      modifies this
      ensures Model() == Instructions.Adc(old(Model()), r)
    {
      ghost var s := Model();
      var v := ReadPrim(r);
      assert Images() == s.bus;
      var total := AddTotal(a, v, flags);
      var before := a;
      a := Low(total);
      flags := AddStatus(flags, before, v, total);
      assert Images() == s.bus;
    }

    /** `SBC` as written: the conditional swallows the sum. */
    method Sbc(r: Operand)
      requires Valid()
      modifies this
      ensures Model() == Instructions.Sbc(old(Model()), r)
    {
      ghost var s := Model();
      var m := ReadPrim(r);
      assert Images() == s.bus;
      var v := !m;
      var value := Swallowed(a, v, flags);
      var before := a;
      a := Low(value);
      flags := SubtractStatus(flags, before, v, value);
      assert Images() == s.bus;
    }

    /** `CMP`, `CPX`, `CPY`: `donzc` of `register - operand` stored in a `uint16_t`. */
    method Compare(register: bv8, r: Operand)
      requires Valid()
      modifies this
      ensures Model() == Instructions.Compare(old(Model()), register, r)
    {
      ghost var s := Model();
      var m := ReadPrim(r);
      assert Images() == s.bus;
      flags := Donzc(flags, Wrap16(register as int - m as int));
      assert Images() == s.bus;
    }

    /** `CMP`. */
    method Cmp(r: Operand)
      requires Valid()
      modifies this
      ensures Model() == Instructions.Cmp(old(Model()), r)
    {
      Compare(a, r);
    }

    /** `CPX`. */
    method Cpx(r: Operand)
      requires Valid()
      modifies this
      ensures Model() == Instructions.Cpx(old(Model()), r)
    {
      Compare(x, r);
    }

    /** `CPY`. */
    method Cpy(r: Operand)
      requires Valid()
      modifies this
      ensures Model() == Instructions.Cpy(old(Model()), r)
    {
      Compare(y, r);
    }

    /** The branch templates: the 16-bit primitive is evaluated, then PC takes it when `taken`. */
    method BranchIf(m: Address, taken: bool)
      requires Valid()
      modifies this
      ensures Model() == Instructions.BranchIf(old(Model()), m, taken)
    {
      ghost var s := Model();
      var loc := ReadWordPrim(m);
      assert Images() == s.bus;
      if taken {
        pc := loc;
        assert Images() == s.bus;
      }
    }

    /** `BPL`. */
    method Bpl(m: Address)
      requires Valid()
      modifies this
      ensures Model() == Instructions.Bpl(old(Model()), m)
    {
      BranchIf(m, !TestFlag(flags, N));
    }

    /** `BMI`. */
    method Bmi(m: Address)
      requires Valid()
      modifies this
      ensures Model() == Instructions.Bmi(old(Model()), m)
    {
      BranchIf(m, TestFlag(flags, N));
    }

    /** `BVC`. */
    method Bvc(m: Address)
      requires Valid()
      modifies this
      ensures Model() == Instructions.Bvc(old(Model()), m)
    {
      BranchIf(m, !TestFlag(flags, V));
    }

    /** `BVS`. */
    method Bvs(m: Address)
      requires Valid()
      modifies this
      ensures Model() == Instructions.Bvs(old(Model()), m)
    {
      BranchIf(m, TestFlag(flags, V));
    }

    /**
     * `BCC`. The source then spins forever when PC is below 0x4000; here
     * `hangs` reports that instead.
     */
    method Bcc(m: Address) returns (hangs: bool)
      requires Valid()
      modifies this
      ensures Model() == Instructions.Bcc(old(Model()), m)
      ensures hangs == BccHangs(Model())
    {
      BranchIf(m, !TestFlag(flags, C));
      hangs := pc < 0x4000;
    }

    /** `BCS`. */
    method Bcs(m: Address)
      requires Valid()
      modifies this
      ensures Model() == Instructions.Bcs(old(Model()), m)
    {
      BranchIf(m, TestFlag(flags, C));
    }

    /** `BNE`. */
    method Bne(m: Address)
      requires Valid()
      modifies this
      ensures Model() == Instructions.Bne(old(Model()), m)
    {
      BranchIf(m, !TestFlag(flags, Z));
    }

    /** `BEQ` as written: the test is on the mask constant, never on the status byte. */
    method Beq(m: Address)
      requires Valid()
      modifies this
      ensures Model() == Instructions.Beq(old(Model()), m)
    {
      BranchIf(m, Z == 1);
    }

    /** `JMP`. */
    method Jmp(m: Address)
      requires Valid()
      modifies this
      ensures Model() == Instructions.Jmp(old(Model()), m)
    {
      ghost var s := Model();
      var target := ReadWordPrim(m);
      assert Images() == s.bus;
      pc := target;
      assert Images() == s.bus;
    }

    /** `JSR` as written: pushes `PC & 0xf`, then `PC >> 8`. */
    method Jsr(m: Address)
      requires Valid()
      modifies this, Storage()
      ensures Model() == Instructions.Jsr(old(Model()), m)
    {
      ghost var s := Model();
      var v := ReadWordPrim(m);
      assert Images() == s.bus;
      PushReturn();
      ghost var bus := Images();
      pc := v;
      assert Images() == bus;
    }

    /** `PC += 2; push(PC & 0xf); push(PC >> 8)`, shared by `JSR` and `BRK`. */
    method PushReturn()
      requires Valid()
      modifies this, Storage()
      ensures Model() == Instructions.PushReturn(old(Model()))
    {
      ghost var s := Model();
      pc := Next(pc, 2);
      assert Images() == s.bus;
      Push(LowNibble(pc));
      Push(HighByte(pc));
    }

    /** `RTS` as written: both pops read the same byte. */
    method Rts()
      requires Valid()
      modifies this
      ensures Model() == Instructions.Rts(old(Model()))
    {
      ghost var s := Model();
      var hi := Pop();
      assert Model() == s;
      var lo := Pop();
      assert Model() == s;
      pc := hi as int * 0x100 + lo as int;
      assert Images() == s.bus;
    }

    /** `RTI` as written: all three pops read the same byte. */
    method Rti()
      requires Valid()
      modifies this
      ensures Model() == Instructions.Rti(old(Model()))
    {
      ghost var s := Model();
      var status := Pop();
      assert Model() == s;
      flags := status;
      assert Images() == s.bus;
      ghost var u := Model();
      var hi := Pop();
      assert Model() == u;
      var lo := Pop();
      assert Model() == u;
      pc := Word(lo, hi);
      assert Images() == s.bus;
    }

    /** `PHA`. */
    method Pha()
      requires Valid()
      modifies this, Storage()
      ensures Model() == Instructions.Pha(old(Model()))
    {
      Push(a);
    }

    /** `PHP`. */
    method Php()
      requires Valid()
      modifies this, Storage()
      ensures Model() == Instructions.Php(old(Model()))
    {
      Push(flags);
    }

    /** `PLA`: SP does not move. */
    method Pla()
      requires Valid()
      modifies this
      ensures Model() == Instructions.Pla(old(Model()))
    {
      ghost var s := Model();
      var v := Pop();
      assert Model() == s;
      a := v;
      flags := Donz(flags, a);
      assert Images() == s.bus;
    }

    /** `PLP`: SP does not move. */
    method Plp()
      requires Valid()
      modifies this
      ensures Model() == Instructions.Plp(old(Model()))
    {
      ghost var s := Model();
      var v := Pop();
      assert Model() == s;
      flags := v;
      assert Images() == s.bus;
    }

    /** `BRK` as written. */
    method Brk()
      requires Valid()
      modifies this, Storage()
      ensures Model() == Instructions.Brk(old(Model()))
    {
      ghost var s := Model();
      interupts := interupts | 2;
      assert Images() == s.bus;
      PushReturn();
      Push(flags);
      ghost var bus := Images();
      flags := SetFlag(flags, B);
      assert Images() == bus;
    }
  }
}
