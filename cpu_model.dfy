/** The processor of src/cpu.rs as values: its registers and memory as one `Machine`,
    and every operation of the `CPU` struct as a function from the old machine to the
    new one.  The class in module `Cpu` is proved to implement these functions; the
    lemmas here state what they mean.

    The model follows the code where it departs from the 6502:
    - `update_status` never clears Negative for a value between 1 and 127;
    - `push` increments `sp` before writing and `pop` decrements it after reading;
    - `read_indirect_address` fetches the high byte from the pointer plus 0x100;
    - `step` adds 1 to `pc` after every instruction, so JMP lands one past its target
      and an opcode that `execute_instruction` does not know is skipped with its
      following byte;
    - `cycles` is never updated and `reset` changes only `pc`. */
module CpuModel {
  import opened Bytes
  import opened Wrappers
  import Instructions

  /** The stack lives in page 1. */
  const StackPage: Byte := 0x01

  /** The three vectors at the top of memory. */
  const NmiVector: Word := 0xfffa
  const ResetVector: Word := 0xfffc
  const IrqVector: Word := 0xfffe

  /** The status register, as a pattern of eight flag bits. */
  type Status = bv8

  /** The bit of each flag in the status register. */
  const NFlag: Status := 0x80
  const VFlag: Status := 0x40
  const BFlag: Status := 0x10
  const DFlag: Status := 0x08
  const IFlag: Status := 0x04
  const ZFlag: Status := 0x02
  const CFlag: Status := 0x01

  datatype Flag = Negative | Overflow | B | Decimal | Interrupt | Zero | Carry

  /** The addressing modes `read_value` is asked for; `Single` stands for the
      implied and accumulator forms. */
  datatype AddressingMode =
    | Immediate
    | Zero
    | ZeroX
    | ZeroY
    | Absolute
    | AbsoluteX
    | AbsoluteY
    | Indirect
    | IndirectX
    | IndirectY
    | Single
    | Relative

  /** The 64 KiB address space. */
  type Memory = s: seq<Byte> | |s| == 0x10000 witness seq(0x10000, _ => 0)

  /** The fields of the `CPU` struct. */
  datatype Machine = Machine(
    cycles: nat,
    status: Status,
    pc: Word,
    sp: Byte,
    a: Byte,
    x: Byte,
    y: Byte,
    memory: Memory)

  /** `CPU::default()`: every register and every memory cell is zero. */
  function PowerOn(): (m: Machine)
    ensures m.cycles == 0
    ensures m.pc == 0 && m.sp == 0 && m.status == 0 && m.a == 0 && m.x == 0 && m.y == 0
    ensures forall address: Word :: Fetch(m, address) == 0
  {
    Machine(0, 0, 0, 0, 0, 0, 0, seq(0x10000, _ => 0))
  }

  // ----- Memory -----

  /** `fetch`: the byte at `address`; only memory is consulted. */
  function Fetch(m: Machine, address: Word): (value: Byte)
    ensures value == m.memory[address]
  {
    m.memory[address]
  }

  /** `store`: `value` is written at `address` and nothing else changes. */
  function Store(m: Machine, address: Word, value: Byte): (r: Machine)
    ensures Fetch(r, address) == value
    ensures forall b: Word :: b != address ==> Fetch(r, b) == Fetch(m, b)
    ensures r.(memory := m.memory) == m
  {
    m.(memory := m.memory[address := value])
  }

  // ----- Flags -----

  /** `get_flag_constant`: the status bit of a flag. */
  function FlagMask(f: Flag): (mask: Status)
    ensures mask != 0 && mask & (mask - 1) == 0
    ensures mask != 0x20
  {
    match f
    case Negative => NFlag
    case Overflow => VFlag
    case B => BFlag
    case Decimal => DFlag
    case Interrupt => IFlag
    case Zero => ZFlag
    case Carry => CFlag
  }

  /** Different flags own different bits. */
  lemma FlagMaskInjective(f: Flag, g: Flag)
    ensures FlagMask(f) == FlagMask(g) <==> f == g
  {
  }

  predicate IsSet(status: Status, f: Flag) {
    status & FlagMask(f) != 0
  }

  /** `set_flag`: the flag's bit becomes `v`; every other bit of the status is kept. */
  function WithFlag(status: Status, f: Flag, v: bool): (r: Status)
    ensures IsSet(r, f) == v
    ensures r & !FlagMask(f) == status & !FlagMask(f)
  {
    (status & !FlagMask(f)) | if v then FlagMask(f) else 0
  }

  /** Setting one flag leaves the reading of every other flag unchanged. */
  lemma WithFlagKeepsOthers(status: Status, f: Flag, v: bool, g: Flag)
    requires g != f
    ensures IsSet(WithFlag(status, f, v), g) == IsSet(status, g)
  {
    FlagMaskInjective(f, g);
  }

  /** `update_status`: Zero records whether `value` is 0; Negative is cleared by 0,
      set by a value above 127, and left as it was for 1 to 127.  No other bit changes. */
  function UpdatedStatus(status: Status, value: Byte): (r: Status)
    ensures IsSet(r, Flag.Zero) <==> value == 0
    ensures value == 0 ==> !IsSet(r, Negative)
    ensures value > 127 ==> IsSet(r, Negative)
    ensures 0 < value <= 127 ==> IsSet(r, Negative) == IsSet(status, Negative)
    ensures r & !(ZFlag | NFlag) == status & !(ZFlag | NFlag)
  {
    if value == 0 then
      WithFlag(WithFlag(status, Flag.Zero, true), Negative, false)
    else
      var s := WithFlag(status, Flag.Zero, false);
      if value > 127 then WithFlag(s, Negative, true) else s
  }

  /** Negative is left set by a positive value: the 6502 would clear it here. */
  lemma NegativeSurvivesPositiveValue(status: Status, value: Byte)
    requires IsSet(status, Negative) && 0 < value <= 127
    ensures IsSet(UpdatedStatus(status, value), Negative)
  {
  }

  // ----- Stack -----

  /** The address `sp` names in the stack page. */
  function StackAddress(sp: Byte): (address: Word)
    ensures 0x0100 <= address <= 0x01ff
    ensures LowByte(address) == sp && HighByte(address) == StackPage
  {
    WordOf(sp, StackPage)
  }

  /** `push`: `sp` is incremented, then `value` is written at the stack address it names.
      Only that cell of page 1 changes. */
  function Push(m: Machine, value: Byte): (r: Machine)
    ensures r.sp == AddByte(m.sp, 1)
    ensures Fetch(r, StackAddress(r.sp)) == value
    ensures forall b: Word :: b != StackAddress(r.sp) ==> Fetch(r, b) == Fetch(m, b)
    ensures r.(sp := m.sp, memory := m.memory) == m
  {
    var sp := AddByte(m.sp, 1);
    Store(m.(sp := sp), StackAddress(sp), value)
  }

  /** `pop`: the byte at the stack address `sp` names, and `sp` decremented afterwards. */
  function Pop(m: Machine): (r: (Machine, Byte))
    ensures r.1 == Fetch(m, StackAddress(m.sp))
    ensures r.0.sp == SubByte(m.sp, 1) && r.0.(sp := m.sp) == m
  {
    (m.(sp := SubByte(m.sp, 1)), Fetch(m, StackAddress(m.sp)))
  }

  /** A pop right after a push returns the pushed value and restores `sp`. */
  lemma PushThenPop(m: Machine, value: Byte)
    ensures Pop(Push(m, value)).1 == value
    ensures Pop(Push(m, value)).0 == Push(m, value).(sp := m.sp)
  {
  }

  /** A push from `sp` 0xFF wraps to 0x00 and writes 0x0100. */
  lemma PushWraps(m: Machine, value: Byte)
    requires m.sp == 0xff
    ensures Push(m, value).sp == 0x00
    ensures Fetch(Push(m, value), 0x0100) == value
  {
  }

  /** Pushing the values of `vs` in order. */
  function PushAll(m: Machine, vs: seq<Byte>): Machine
    decreases |vs|
  {
    if vs == [] then m else PushAll(Push(m, vs[0]), vs[1..])
  }

  /** However many values are pushed, only page 1 is written and only `sp` among the
      registers moves; `sp` advances by the number of values, modulo 256. */
  lemma {:induction false} PushAllStaysInStackPage(m: Machine, vs: seq<Byte>)
    ensures var r := PushAll(m, vs);
      r.(sp := m.sp, memory := m.memory) == m &&
      r.sp == (m.sp + |vs|) % 0x100 &&
      forall b: Word :: !(0x0100 <= b <= 0x01ff) ==> Fetch(r, b) == Fetch(m, b)
    decreases |vs|
  {
    if vs != [] {
      var m1 := Push(m, vs[0]);
      PushAllStaysInStackPage(m1, vs[1..]);
      assert PushAll(m, vs) == PushAll(m1, vs[1..]);
    }
  }

  // ----- Address resolution -----

  /** The little-endian word at `pc`, `pc + 1`. */
  function AbsoluteAddress(m: Machine): (address: Word)
    ensures LowByte(address) == Fetch(m, m.pc)
    ensures HighByte(address) == Fetch(m, AddWord(m.pc, 1))
  {
    WordOf(Fetch(m, m.pc), Fetch(m, AddWord(m.pc, 1)))
  }

  /** `read_absolute_address`: the word at `pc`; `pc` advances by one only, to the
      address's last byte. */
  function ReadAbsoluteAddress(m: Machine): (r: (Machine, Word))
    ensures r.1 == AbsoluteAddress(m)
    ensures r.0 == m.(pc := AddWord(m.pc, 1))
  {
    (m.(pc := AddWord(m.pc, 1)), AbsoluteAddress(m))
  }

  /** The address of the high byte of an indirect target, as `read_indirect_address`
      forms it: the pointer's high byte plus 1 (wrapping), its low byte unchanged. */
  function IndirectHighByteAddress(pointer: Word): (address: Word)
    ensures address == AddWord(pointer, 0x100)
    ensures LowByte(address) == LowByte(pointer)
  {
    WordOf(LowByte(pointer), AddByte(HighByte(pointer), 1))
  }

  /** The target of an indirect jump: the low byte is read at the pointer found at
      `pc`, the high byte at the pointer plus 0x100. */
  function IndirectAddress(m: Machine): (address: Word)
    ensures LowByte(address) == Fetch(m, AbsoluteAddress(m))
    ensures HighByte(address) == Fetch(m, AddWord(AbsoluteAddress(m), 0x100))
  {
    var pointer := AbsoluteAddress(m);
    WordOf(Fetch(m, pointer), Fetch(m, IndirectHighByteAddress(pointer)))
  }

  /** `read_indirect_address`: the indirect target; `pc` advances by one. */
  function ReadIndirectAddress(m: Machine): (r: (Machine, Word))
    ensures r.1 == IndirectAddress(m)
    ensures r.0 == m.(pc := AddWord(m.pc, 1))
  {
    (m.(pc := AddWord(m.pc, 1)), IndirectAddress(m))
  }

  /** Where the doc comment of `read_indirect_address` says the high byte comes from:
      the same page as the pointer, the low byte incremented with wrap-around. */
  function CommentedHighByteAddress(pointer: Word): (address: Word)
    ensures HighByte(address) == HighByte(pointer)
    ensures LowByte(address) == AddByte(LowByte(pointer), 1)
  {
    WordOf(AddByte(LowByte(pointer), 1), HighByte(pointer))
  }

  /** The code never reads the high byte where its comment says, for any pointer. */
  lemma IndirectDisagreesWithComment(pointer: Word)
    ensures IndirectHighByteAddress(pointer) != CommentedHighByteAddress(pointer)
    ensures pointer == 0x02ff ==>
      IndirectHighByteAddress(pointer) == 0x03ff && CommentedHighByteAddress(pointer) == 0x0200
  {
  }

  /** The little-endian word stored in page 0 at `zp` and `zp + 1`, the second
      address wrapping inside page 0. */
  function ZeroPagePointer(m: Machine, zp: Byte): (pointer: Word)
    ensures LowByte(pointer) == Fetch(m, zp)
    ensures HighByte(pointer) == Fetch(m, AddByte(zp, 1))
  {
    WordOf(Fetch(m, zp), Fetch(m, AddByte(zp, 1)))
  }

  /** `read_indirect_indexed_address`, "(zp),Y": the zero-page pointer named by the
      byte at `pc`, plus `offset` modulo 65536; taking `offset` off again gives back
      the pointer. */
  function IndirectIndexedAddress(m: Machine, offset: Byte): (address: Word)
    ensures (address - offset) % 0x10000 == ZeroPagePointer(m, Fetch(m, m.pc))
  {
    AddWord(ZeroPagePointer(m, Fetch(m, m.pc)), offset)
  }

  /** `read_indexed_indirect_address`, "(zp,X)": the zero-page pointer named by the
      byte at `pc` plus `offset`, wrapping inside page 0. */
  function IndexedIndirectAddress(m: Machine, offset: Byte): (address: Word)
    ensures address == ZeroPagePointer(m, (Fetch(m, m.pc) + offset) % 0x100)
  {
    ZeroPagePointer(m, AddByte(Fetch(m, m.pc), offset))
  }

  // ----- Reading an operand -----

  predicate IsZeroPageMode(mode: AddressingMode) {
    mode == AddressingMode.Zero || mode == ZeroX || mode == ZeroY
  }

  predicate IsAbsoluteMode(mode: AddressingMode) {
    mode == Absolute || mode == AbsoluteX || mode == AbsoluteY
  }

  /** The index register a mode adds: X, Y or nothing. */
  function IndexFor(m: Machine, mode: AddressingMode): (offset: Byte)
    ensures mode == AbsoluteX || mode == IndirectX || mode == ZeroX ==> offset == m.x
    ensures mode == AbsoluteY || mode == IndirectY || mode == ZeroY ==> offset == m.y
    ensures mode == Immediate || mode == AddressingMode.Zero || mode == Absolute ==> offset == 0
    ensures mode == Indirect || mode == Single || mode == Relative ==> offset == 0
  {
    if mode == AbsoluteX || mode == IndirectX || mode == ZeroX then m.x
    else if mode == AbsoluteY || mode == IndirectY || mode == ZeroY then m.y
    else 0
  }

  /** The address `read_value` loads from, or `None` for the modes it does not resolve:
      the indirect jump form, the implied and accumulator forms and the branches.  An
      immediate operand is the byte at `pc`; a zero-page operand never leaves page 0. */
  function OperandAddress(m: Machine, mode: AddressingMode): (r: Option<Word>)
    ensures r.None? <==> mode == Indirect || mode == Single || mode == Relative
    ensures mode == Immediate ==> r == Some(m.pc)
    ensures IsZeroPageMode(mode) ==> r.value < 0x100
    ensures mode == IndirectX ==> r == Some(IndexedIndirectAddress(m, m.x))
    ensures mode == IndirectY ==> r == Some(IndirectIndexedAddress(m, m.y))
  {
    var offset := IndexFor(m, mode);
    if mode == Immediate then Some(m.pc)
    else if IsZeroPageMode(mode) then Some(AddByte(Fetch(m, m.pc), offset))
    else if IsAbsoluteMode(mode) then Some(AddWord(AbsoluteAddress(m), offset))
    else if mode == IndirectX then Some(IndexedIndirectAddress(m, offset))
    else if mode == IndirectY then Some(IndirectIndexedAddress(m, offset))
    else None
  }

  /** `read_value`: the operand byte, and the machine with `pc` advanced by one for the
      absolute modes only.  The unresolved modes read 0. */
  function ReadValue(m: Machine, mode: AddressingMode): (r: (Machine, Byte))
    ensures r.0 == m.(pc := if IsAbsoluteMode(mode) then AddWord(m.pc, 1) else m.pc)
    ensures OperandAddress(m, mode).None? ==> r.1 == 0
    ensures OperandAddress(m, mode).Some? ==> r.1 == Fetch(m, OperandAddress(m, mode).value)
  {
    var value := match OperandAddress(m, mode)
      case Some(address) => Fetch(m, address)
      case None => 0;
    (m.(pc := if IsAbsoluteMode(mode) then AddWord(m.pc, 1) else m.pc), value)
  }

  /** The immediate operand is the byte at `pc`; "(zp,X)" and "(zp),Y" read through
      the zero-page pointer, indexed before or after the indirection. */
  lemma ReadValueOperands(m: Machine)
    ensures ReadValue(m, Immediate).1 == Fetch(m, m.pc)
    ensures ReadValue(m, IndirectX).1 == Fetch(m, IndexedIndirectAddress(m, m.x))
    ensures ReadValue(m, IndirectY).1 == Fetch(m, IndirectIndexedAddress(m, m.y))
  {
  }

  /** Zero-page operands stay in page 0: the operand byte plus the index wraps at 256. */
  lemma ZeroPageOperandWraps(m: Machine, mode: AddressingMode)
    requires IsZeroPageMode(mode)
    ensures ReadValue(m, mode).1 == Fetch(m, (Fetch(m, m.pc) + IndexFor(m, mode)) % 0x100)
    ensures OperandAddress(m, mode).value < 0x100
  {
  }

  /** Absolute operands add the index to the 16-bit address modulo 65536. */
  lemma AbsoluteOperand(m: Machine, mode: AddressingMode)
    requires IsAbsoluteMode(mode)
    ensures ReadValue(m, mode).1 ==
      Fetch(m, (WordOf(Fetch(m, m.pc), Fetch(m, AddWord(m.pc, 1))) + IndexFor(m, mode)) % 0x10000)
  {
  }

  /** The modes `read_value` does not resolve read 0 and leave `pc` alone. */
  lemma UnresolvedModesReadZero(m: Machine, mode: AddressingMode)
    requires mode == Indirect || mode == Single || mode == Relative
    ensures ReadValue(m, mode) == (m, 0)
  {
  }

  // ----- Execution -----

  /** The eight LDA opcodes `execute_instruction` decodes, with their modes; every one
      of them names a mode `read_value` resolves, and none is the ZeroY form that only
      LDX and STX have. */
  function LdaMode(opcode: Byte): (r: Option<AddressingMode>)
    ensures r.Some? ==> r.value != Indirect && r.value != Single && r.value != Relative
    ensures r.Some? ==> r.value != ZeroY
  {
    match opcode
    case 0xa9 => Some(Immediate)
    case 0xa5 => Some(AddressingMode.Zero)
    case 0xb5 => Some(ZeroX)
    case 0xad => Some(Absolute)
    case 0xbd => Some(AbsoluteX)
    case 0xb9 => Some(AbsoluteY)
    case 0xa1 => Some(IndirectX)
    case 0xb1 => Some(IndirectY)
    case _ => None
  }

  /** The opcodes `LdaMode` decodes are the 6502's whole LDA group: the bit pattern
      101bbb01, one opcode for each of the eight values of the mode field bbb. */
  lemma LdaOpcodes(opcode: Byte)
    ensures LdaMode(opcode).Some? <==> opcode / 0x20 == 5 && opcode % 4 == 1
  {
  }

  /** JMP absolute, the only other opcode `execute_instruction` decodes. */
  const JmpAbsolute: Byte := 0x4c

  /** `execute_instruction`, with `pc` at the first operand byte: JMP sets `pc` to its
      target; LDA loads A and updates Z and N; any other opcode does nothing.  Memory,
      X, Y, `sp` and `cycles` never change. */
  function Execute(m: Machine, opcode: Byte): (r: Machine)
    ensures r.(a := m.a, status := m.status, pc := m.pc) == m
    ensures opcode == JmpAbsolute ==> r == m.(pc := AbsoluteAddress(m))
    ensures LdaMode(opcode).Some? ==>
      r.a == ReadValue(m, LdaMode(opcode).value).1 && r.status == UpdatedStatus(m.status, r.a)
    ensures opcode != JmpAbsolute && LdaMode(opcode).None? ==> r == m
  {
    if opcode == JmpAbsolute then
      var (_, target) := ReadAbsoluteAddress(m);
      m.(pc := target)
    else match LdaMode(opcode)
      case Some(mode) =>
        var (m1, value) := ReadValue(m, mode);
        m1.(a := value, status := UpdatedStatus(m1.status, value))
      case None => m
  }

  /** `step`: fetch the opcode at `pc`, advance `pc`, execute, then advance `pc` again.
      A step changes only A, the status and `pc`: never memory, X, Y, `sp` or `cycles`. */
  function Step(m: Machine): (r: Machine)
    ensures r.(a := m.a, status := m.status, pc := m.pc) == m
  {
    var opcode := Fetch(m, m.pc);
    var m1 := Execute(m.(pc := AddWord(m.pc, 1)), opcode);
    m1.(pc := AddWord(m1.pc, 1))
  }

  /** `reset`: `pc` is loaded from the reset vector. */
  function Reset(m: Machine): (r: Machine)
    ensures r.pc == WordOf(Fetch(m, ResetVector), Fetch(m, ResetVector + 1))
    ensures r.(pc := m.pc) == m
  {
    var (m1, start) := ReadAbsoluteAddress(m.(pc := ResetVector));
    m1.(pc := start)
  }

  /** Bytes 0x34, 0x12 in the reset vector start the program at 0x1234. */
  lemma ResetExample(m: Machine)
    requires Fetch(m, 0xfffc) == 0x34 && Fetch(m, 0xfffd) == 0x12
    ensures Reset(m).pc == 0x1234
  {
  }

  /** LDA #imm loads the byte after the opcode and moves `pc` past both bytes. */
  lemma StepLdaImmediate(m: Machine)
    requires Fetch(m, m.pc) == 0xa9
    ensures Step(m).a == Fetch(m, AddWord(m.pc, 1))
    ensures Step(m).status == UpdatedStatus(m.status, Fetch(m, AddWord(m.pc, 1)))
    ensures Step(m).pc == AddWord(m.pc, 2)
  {
  }

  /** LDA abs loads from the little-endian address after the opcode and moves `pc`
      past all three bytes. */
  lemma StepLdaAbsolute(m: Machine)
    requires Fetch(m, m.pc) == 0xad
    ensures Step(m).a == Fetch(m, WordOf(Fetch(m, AddWord(m.pc, 1)), Fetch(m, AddWord(m.pc, 2))))
    ensures Step(m).pc == AddWord(m.pc, 3)
  {
  }

  /** An LDA loads the operand of its mode, updates Z and N from it, and moves `pc`
      past its operand: 3 bytes for the absolute modes, 2 otherwise. */
  lemma StepLda(m: Machine)
    requires LdaMode(Fetch(m, m.pc)).Some?
    ensures var mode := LdaMode(Fetch(m, m.pc)).value;
      var value := ReadValue(m.(pc := AddWord(m.pc, 1)), mode).1;
      Step(m) == m.(a := value, status := UpdatedStatus(m.status, value),
                    pc := AddWord(m.pc, if IsAbsoluteMode(mode) then 3 else 2))
  {
  }

  /** JMP abs lands one byte past its target, since `step` adds 1 afterwards. */
  lemma StepJmpAbsolute(m: Machine)
    requires Fetch(m, m.pc) == JmpAbsolute
    ensures Step(m) == m.(pc := AddWord(WordOf(Fetch(m, AddWord(m.pc, 1)), Fetch(m, AddWord(m.pc, 2))), 1))
  {
  }

  /** Any other opcode is skipped together with the byte after it. */
  lemma StepOther(m: Machine)
    requires Fetch(m, m.pc) != JmpAbsolute && LdaMode(Fetch(m, m.pc)).None?
    ensures Step(m) == m.(pc := AddWord(m.pc, 2))
  {
  }

  /** `LDA #$80; LDA #$01` leaves A = 1 with Zero clear but Negative still set. */
  lemma LoadPositiveAfterNegative(m: Machine)
    requires m.pc < 0xfffc
    requires Fetch(m, m.pc) == 0xa9 && Fetch(m, m.pc + 1) == 0x80
    requires Fetch(m, m.pc + 2) == 0xa9 && Fetch(m, m.pc + 3) == 0x01
    ensures Step(Step(m)).a == 0x01
    ensures !IsSet(Step(Step(m)).status, Flag.Zero) && IsSet(Step(Step(m)).status, Negative)
    ensures Step(Step(m)).pc == m.pc + 4
  {
    StepLdaImmediate(m);
    StepLdaImmediate(Step(m));
  }

  // ----- Agreement with the opcode table -----

  /** The table's addressing mode for a mode `read_value` resolves. */
  function TableMode(mode: AddressingMode): Instructions.AddressingMode {
    match mode
    case Immediate => Instructions.Immediate
    case Zero => Instructions.Zero
    case ZeroX => Instructions.ZeroX
    case ZeroY => Instructions.ZeroY
    case Absolute => Instructions.Absolute
    case AbsoluteX => Instructions.AbsoluteX
    case AbsoluteY => Instructions.AbsoluteY
    case Indirect => Instructions.Indirect
    case IndirectX => Instructions.IndirectX
    case IndirectY => Instructions.IndirectY
    case Single => Instructions.Implied
    case Relative => Instructions.Relative
  }

  /** The opcodes `execute_instruction` decodes by hand are the table's LDA entries
      with the same modes, and its JMP absolute entry. */
  lemma DecodeAgreesWithTable(opcode: Byte)
    ensures LdaMode(opcode).Some? ==>
      Instructions.Lookup(opcode).Some? &&
      Instructions.Lookup(opcode).value.mnemonic == Instructions.LDA &&
      Instructions.Lookup(opcode).value.mode == TableMode(LdaMode(opcode).value)
    ensures Instructions.Lookup(JmpAbsolute) == Some(Instructions.Instruction(0x4c, Instructions.JMP, Instructions.Absolute, 3))
  {
  }
}
