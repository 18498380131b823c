/** The opcode table of the 6502 (src/cpu/instruction.rs): for every official opcode
    its mnemonic, its addressing mode and its base cycle count.

    The source declares the table as a static perfect-hash map from opcode byte to
    `Instruction`, listed by mnemonic.  Here the same 151 entries are laid out as the
    usual 16 x 16 opcode matrix: `Lookup` selects the row by the high nibble of the
    opcode and each `RowN` matches the low nibble.  An opcode with no entry maps to
    `None`, as `INSTRUCTIONS.get` would. */
module Instructions {
  import opened Bytes
  import opened Wrappers

  /** The 56 documented 6502 operations, in the order the source declares them. */
  datatype Mnemonic =
    | ADC | AND | ASL | BIT | BPL | BMI | BVC | BVS | BCC | BCS | BNE | BEQ | BRK | CMP | CPX | CPY
    | DEC | EOR | CLC | SEC | CLI | SEI | CLV | CLD | SED | INC | JMP | JSR | LDA | LDX | LDY | LSR
    | NOP | ORA | TAX | TXA | DEX | INX | TAY | TYA | DEY | INY | ROL | ROR | RTI | RTS | SBC | STA
    | TXS | TSX | PHA | PLA | PHP | PLP | STX | STY

  /** The 13 addressing modes of the table. */
  datatype AddressingMode =
    | Immediate
    | Zero
    | ZeroX
    | ZeroY
    | Absolute
    | AbsoluteX
    | AbsoluteY
    | Indirect
    | IndirectX
    | IndirectY
    | Implied
    | Relative
    | Accumulator

  /** One table entry; `time` is the base cycle count. */
  datatype Instruction = Instruction(opcode: Byte, mnemonic: Mnemonic, mode: AddressingMode, time: Byte)

  /** The entry for `opcode`, or `None` when the table has none.  The table is keyed
      by opcode, so an entry found under `opcode` records `opcode` itself. */
  function Lookup(opcode: Byte): (r: Option<Instruction>)
    ensures r.Some? ==> r.value.opcode == opcode
  {
    Cell(opcode / 16, opcode % 16)
  }

  /** The entry in row `hi` (the high nibble) and column `lo` (the low nibble). */
  function Cell(hi: int, lo: int): Option<Instruction>
    requires 0 <= hi < 16 && 0 <= lo < 16
  {
    match hi
    case 0x0 => Row0(lo)
    case 0x1 => Row1(lo)
    case 0x2 => Row2(lo)
    case 0x3 => Row3(lo)
    case 0x4 => Row4(lo)
    case 0x5 => Row5(lo)
    case 0x6 => Row6(lo)
    case 0x7 => Row7(lo)
    case 0x8 => Row8(lo)
    case 0x9 => Row9(lo)
    case 0xa => RowA(lo)
    case 0xb => RowB(lo)
    case 0xc => RowC(lo)
    case 0xd => RowD(lo)
    case 0xe => RowE(lo)
    case _ => RowF(lo)
  }

  /** Opcodes 0x00 to 0x0F, by low nibble. */
  function Row0(lo: int): Option<Instruction> {
    match lo
    case 0x0 => Some(Instruction(0x00, BRK, Implied, 7))
    case 0x1 => Some(Instruction(0x01, ORA, IndirectX, 6))
    case 0x5 => Some(Instruction(0x05, ORA, Zero, 3))
    case 0x6 => Some(Instruction(0x06, ASL, Zero, 5))
    case 0x8 => Some(Instruction(0x08, PHP, Implied, 3))
    case 0x9 => Some(Instruction(0x09, ORA, Immediate, 2))
    case 0xa => Some(Instruction(0x0a, ASL, Accumulator, 2))
    case 0xd => Some(Instruction(0x0d, ORA, Absolute, 4))
    case 0xe => Some(Instruction(0x0e, ASL, Absolute, 6))
    case _ => None
  }

  /** Opcodes 0x10 to 0x1F, by low nibble. */
  function Row1(lo: int): Option<Instruction> {
    match lo
    case 0x0 => Some(Instruction(0x10, BPL, Relative, 3))
    case 0x1 => Some(Instruction(0x11, ORA, IndirectY, 5))
    case 0x5 => Some(Instruction(0x15, ORA, ZeroX, 4))
    case 0x6 => Some(Instruction(0x16, ASL, ZeroX, 6))
    case 0x8 => Some(Instruction(0x18, CLC, Implied, 2))
    case 0x9 => Some(Instruction(0x19, ORA, AbsoluteY, 4))
    case 0xd => Some(Instruction(0x1d, ORA, AbsoluteX, 4))
    case 0xe => Some(Instruction(0x1e, ASL, AbsoluteX, 7))
    case _ => None
  }

  /** Opcodes 0x20 to 0x2F, by low nibble. */
  function Row2(lo: int): Option<Instruction> {
    match lo
    case 0x0 => Some(Instruction(0x20, JSR, Absolute, 6))
    case 0x1 => Some(Instruction(0x21, AND, IndirectX, 6))
    case 0x4 => Some(Instruction(0x24, BIT, Zero, 3))
    case 0x5 => Some(Instruction(0x25, AND, Zero, 3))
    case 0x6 => Some(Instruction(0x26, ROL, Zero, 5))
    case 0x8 => Some(Instruction(0x28, PLP, Implied, 4))
    case 0x9 => Some(Instruction(0x29, AND, Immediate, 2))
    case 0xa => Some(Instruction(0x2a, ROL, Accumulator, 2))
    case 0xc => Some(Instruction(0x2c, BIT, Absolute, 4))
    case 0xd => Some(Instruction(0x2d, AND, Absolute, 4))
    case 0xe => Some(Instruction(0x2e, ROL, Absolute, 6))
    case _ => None
  }

  /** Opcodes 0x30 to 0x3F, by low nibble. */
  function Row3(lo: int): Option<Instruction> {
    match lo
    case 0x0 => Some(Instruction(0x30, BMI, Relative, 3))
    case 0x1 => Some(Instruction(0x31, AND, IndirectY, 5))
    case 0x5 => Some(Instruction(0x35, AND, ZeroX, 4))
    case 0x6 => Some(Instruction(0x36, ROL, ZeroX, 6))
    case 0x8 => Some(Instruction(0x38, SEC, Implied, 2))
    case 0x9 => Some(Instruction(0x39, AND, AbsoluteY, 4))
    case 0xd => Some(Instruction(0x3d, AND, AbsoluteX, 4))
    case 0xe => Some(Instruction(0x3e, ROL, AbsoluteX, 7))
    case _ => None
  }

  /** Opcodes 0x40 to 0x4F, by low nibble. */
  function Row4(lo: int): Option<Instruction> {
    match lo
    case 0x0 => Some(Instruction(0x40, RTI, Implied, 6))
    case 0x1 => Some(Instruction(0x41, EOR, IndirectX, 6))
    case 0x5 => Some(Instruction(0x45, EOR, Zero, 3))
    case 0x6 => Some(Instruction(0x46, LSR, Zero, 5))
    case 0x8 => Some(Instruction(0x48, PHA, Implied, 3))
    case 0x9 => Some(Instruction(0x49, EOR, Immediate, 2))
    case 0xa => Some(Instruction(0x4a, LSR, Accumulator, 2))
    case 0xc => Some(Instruction(0x4c, JMP, Absolute, 3))
    case 0xd => Some(Instruction(0x4d, EOR, Absolute, 4))
    case 0xe => Some(Instruction(0x4e, LSR, Absolute, 6))
    case _ => None
  }

  /** Opcodes 0x50 to 0x5F, by low nibble. */
  function Row5(lo: int): Option<Instruction> {
    match lo
    case 0x0 => Some(Instruction(0x50, BVC, Relative, 3))
    case 0x1 => Some(Instruction(0x51, EOR, IndirectY, 5))
    case 0x5 => Some(Instruction(0x55, EOR, ZeroX, 4))
    case 0x6 => Some(Instruction(0x56, LSR, ZeroX, 6))
    case 0x8 => Some(Instruction(0x58, CLI, Implied, 2))
    case 0x9 => Some(Instruction(0x59, EOR, AbsoluteY, 4))
    case 0xd => Some(Instruction(0x5d, EOR, AbsoluteX, 4))
    case 0xe => Some(Instruction(0x5e, LSR, AbsoluteX, 7))
    case _ => None
  }

  /** Opcodes 0x60 to 0x6F, by low nibble. */
  function Row6(lo: int): Option<Instruction> {
    match lo
    case 0x0 => Some(Instruction(0x60, RTS, Implied, 6))
    case 0x1 => Some(Instruction(0x61, ADC, IndirectX, 6))
    case 0x5 => Some(Instruction(0x65, ADC, Zero, 3))
    case 0x6 => Some(Instruction(0x66, ROR, Zero, 5))
    case 0x8 => Some(Instruction(0x68, PLA, Implied, 4))
    case 0x9 => Some(Instruction(0x69, ADC, Immediate, 2))
    case 0xa => Some(Instruction(0x6a, ROR, Accumulator, 2))
    case 0xc => Some(Instruction(0x6c, JMP, Indirect, 5))
    case 0xd => Some(Instruction(0x6d, ADC, Absolute, 4))
    case 0xe => Some(Instruction(0x6e, ROR, Absolute, 6))
    case _ => None
  }

  /** Opcodes 0x70 to 0x7F, by low nibble. */
  function Row7(lo: int): Option<Instruction> {
    match lo
    case 0x0 => Some(Instruction(0x70, BVS, Relative, 3))
    case 0x1 => Some(Instruction(0x71, ADC, IndirectY, 5))
    case 0x5 => Some(Instruction(0x75, ADC, ZeroX, 4))
    case 0x6 => Some(Instruction(0x76, ROR, ZeroX, 6))
    case 0x8 => Some(Instruction(0x78, SEI, Implied, 2))
    case 0x9 => Some(Instruction(0x79, ADC, AbsoluteY, 4))
    case 0xd => Some(Instruction(0x7d, ADC, AbsoluteX, 4))
    case 0xe => Some(Instruction(0x7e, ROR, AbsoluteX, 7))
    case _ => None
  }

  /** Opcodes 0x80 to 0x8F, by low nibble. */
  function Row8(lo: int): Option<Instruction> {
    match lo
    case 0x1 => Some(Instruction(0x81, STA, IndirectX, 6))
    case 0x4 => Some(Instruction(0x84, STY, Zero, 3))
    case 0x5 => Some(Instruction(0x85, STA, Zero, 3))
    case 0x6 => Some(Instruction(0x86, STX, Zero, 3))
    case 0x8 => Some(Instruction(0x88, DEY, Implied, 2))
    case 0xa => Some(Instruction(0x8a, TXA, Implied, 2))
    case 0xc => Some(Instruction(0x8c, STY, Absolute, 4))
    case 0xd => Some(Instruction(0x8d, STA, Absolute, 4))
    case 0xe => Some(Instruction(0x8e, STX, Absolute, 4))
    case _ => None
  }

  /** Opcodes 0x90 to 0x9F, by low nibble. */
  function Row9(lo: int): Option<Instruction> {
    match lo
    case 0x0 => Some(Instruction(0x90, BCC, Relative, 3))
    case 0x1 => Some(Instruction(0x91, STA, IndirectY, 6))
    case 0x4 => Some(Instruction(0x94, STY, ZeroX, 4))
    case 0x5 => Some(Instruction(0x95, STA, ZeroX, 4))
    case 0x6 => Some(Instruction(0x96, STX, ZeroY, 4))
    case 0x8 => Some(Instruction(0x98, TYA, Implied, 2))
    case 0x9 => Some(Instruction(0x99, STA, AbsoluteY, 5))
    case 0xa => Some(Instruction(0x9a, TXS, Implied, 2))
    case 0xd => Some(Instruction(0x9d, STA, AbsoluteX, 5))
    case _ => None
  }

  /** Opcodes 0xA0 to 0xAF, by low nibble. */
  function RowA(lo: int): Option<Instruction> {
    match lo
    case 0x0 => Some(Instruction(0xa0, LDY, Immediate, 2))
    case 0x1 => Some(Instruction(0xa1, LDA, IndirectX, 6))
    case 0x2 => Some(Instruction(0xa2, LDX, Immediate, 2))
    case 0x4 => Some(Instruction(0xa4, LDY, Zero, 3))
    case 0x5 => Some(Instruction(0xa5, LDA, Zero, 3))
    case 0x6 => Some(Instruction(0xa6, LDX, Zero, 3))
    case 0x8 => Some(Instruction(0xa8, TAY, Implied, 2))
    case 0x9 => Some(Instruction(0xa9, LDA, Immediate, 2))
    case 0xa => Some(Instruction(0xaa, TAX, Implied, 2))
    case 0xc => Some(Instruction(0xac, LDY, Absolute, 4))
    case 0xd => Some(Instruction(0xad, LDA, Absolute, 4))
    case 0xe => Some(Instruction(0xae, LDX, Absolute, 4))
    case _ => None
  }

  /** Opcodes 0xB0 to 0xBF, by low nibble. */
  function RowB(lo: int): Option<Instruction> {
    match lo
    case 0x0 => Some(Instruction(0xb0, BCS, Relative, 3))
    case 0x1 => Some(Instruction(0xb1, LDA, IndirectY, 5))
    case 0x4 => Some(Instruction(0xb4, LDY, ZeroX, 4))
    case 0x5 => Some(Instruction(0xb5, LDA, ZeroX, 4))
    case 0x6 => Some(Instruction(0xb6, LDX, ZeroY, 4))
    case 0x8 => Some(Instruction(0xb8, CLV, Implied, 2))
    case 0x9 => Some(Instruction(0xb9, LDA, AbsoluteY, 4))
    case 0xa => Some(Instruction(0xba, TSX, Implied, 2))
    case 0xc => Some(Instruction(0xbc, LDY, AbsoluteX, 4))
    case 0xd => Some(Instruction(0xbd, LDA, AbsoluteX, 4))
    case 0xe => Some(Instruction(0xbe, LDX, AbsoluteY, 4))
    case _ => None
  }

  /** Opcodes 0xC0 to 0xCF, by low nibble. */
  function RowC(lo: int): Option<Instruction> {
    match lo
    case 0x0 => Some(Instruction(0xc0, CPY, Immediate, 2))
    case 0x1 => Some(Instruction(0xc1, CMP, IndirectX, 6))
    case 0x4 => Some(Instruction(0xc4, CPY, Zero, 3))
    case 0x5 => Some(Instruction(0xc5, CMP, Zero, 3))
    case 0x6 => Some(Instruction(0xc6, DEC, Zero, 5))
    case 0x8 => Some(Instruction(0xc8, INY, Implied, 2))
    case 0x9 => Some(Instruction(0xc9, CMP, Immediate, 2))
    case 0xa => Some(Instruction(0xca, DEX, Implied, 2))
    case 0xc => Some(Instruction(0xcc, CPY, Absolute, 4))
    case 0xd => Some(Instruction(0xcd, CMP, Absolute, 4))
    case 0xe => Some(Instruction(0xce, DEC, Absolute, 6))
    case _ => None
  }

  /** Opcodes 0xD0 to 0xDF, by low nibble. */
  function RowD(lo: int): Option<Instruction> {
    match lo
    case 0x0 => Some(Instruction(0xd0, BNE, Relative, 3))
    case 0x1 => Some(Instruction(0xd1, CMP, IndirectY, 5))
    case 0x5 => Some(Instruction(0xd5, CMP, ZeroX, 4))
    case 0x6 => Some(Instruction(0xd6, DEC, ZeroX, 6))
    case 0x8 => Some(Instruction(0xd8, CLD, Implied, 2))
    case 0x9 => Some(Instruction(0xd9, CMP, AbsoluteY, 4))
    case 0xd => Some(Instruction(0xdd, CMP, AbsoluteX, 4))
    case 0xe => Some(Instruction(0xde, DEC, AbsoluteX, 7))
    case _ => None
  }

  /** Opcodes 0xE0 to 0xEF, by low nibble. */
  function RowE(lo: int): Option<Instruction> {
    match lo
    case 0x0 => Some(Instruction(0xe0, CPX, Immediate, 2))
    case 0x1 => Some(Instruction(0xe1, SBC, IndirectX, 6))
    case 0x4 => Some(Instruction(0xe4, CPX, Zero, 3))
    case 0x5 => Some(Instruction(0xe5, SBC, Zero, 3))
    case 0x6 => Some(Instruction(0xe6, INC, Zero, 5))
    case 0x8 => Some(Instruction(0xe8, INX, Implied, 2))
    case 0x9 => Some(Instruction(0xe9, SBC, Immediate, 2))
    case 0xa => Some(Instruction(0xea, NOP, Implied, 2))
    case 0xc => Some(Instruction(0xec, CPX, Absolute, 4))
    case 0xd => Some(Instruction(0xed, SBC, Absolute, 4))
    case 0xe => Some(Instruction(0xee, INC, Absolute, 6))
    case _ => None
  }

  /** Opcodes 0xF0 to 0xFF, by low nibble. */
  function RowF(lo: int): Option<Instruction> {
    match lo
    case 0x0 => Some(Instruction(0xf0, BEQ, Relative, 3))
    case 0x1 => Some(Instruction(0xf1, SBC, IndirectY, 5))
    case 0x5 => Some(Instruction(0xf5, SBC, ZeroX, 4))
    case 0x6 => Some(Instruction(0xf6, INC, ZeroX, 6))
    case 0x8 => Some(Instruction(0xf8, SED, Implied, 2))
    case 0x9 => Some(Instruction(0xf9, SBC, AbsoluteY, 4))
    case 0xd => Some(Instruction(0xfd, SBC, AbsoluteX, 4))
    case 0xe => Some(Instruction(0xfe, INC, AbsoluteX, 7))
    case _ => None
  }

  // ----- Counting the entries -----

  /** 1 when the cell has an entry, 0 otherwise. */
  function Present(hi: int, lo: int): nat
    requires 0 <= hi < 16 && 0 <= lo < 16
  {
    if Cell(hi, lo).Some? then 1 else 0
  }

  /** The number of entries in row `hi`. */
  function RowSize(hi: int): nat
    requires 0 <= hi < 16
  {
    Present(hi, 0x0) + Present(hi, 0x1) + Present(hi, 0x2) + Present(hi, 0x3)
    + Present(hi, 0x4) + Present(hi, 0x5) + Present(hi, 0x6) + Present(hi, 0x7)
    + Present(hi, 0x8) + Present(hi, 0x9) + Present(hi, 0xa) + Present(hi, 0xb)
    + Present(hi, 0xc) + Present(hi, 0xd) + Present(hi, 0xe) + Present(hi, 0xf)
  }

  /** The number of entries in rows 0 to 7. */
  function LowerHalfSize(): nat {
    RowSize(0x0) + RowSize(0x1) + RowSize(0x2) + RowSize(0x3)
    + RowSize(0x4) + RowSize(0x5) + RowSize(0x6) + RowSize(0x7)
  }

  /** The number of entries in rows 8 to F. */
  function UpperHalfSize(): nat {
    RowSize(0x8) + RowSize(0x9) + RowSize(0xa) + RowSize(0xb)
    + RowSize(0xc) + RowSize(0xd) + RowSize(0xe) + RowSize(0xf)
  }

  /** The number of opcodes 0x00 to 0xFF that have an entry. */
  function EntryCount(): nat {
    LowerHalfSize() + UpperHalfSize()
  }

  lemma RowSize0() ensures RowSize(0x0) == 9 {
    assert Present(0x0, 0x0) == 1 && Present(0x0, 0x1) == 1 && Present(0x0, 0x2) == 0 && Present(0x0, 0x3) == 0;
    assert Present(0x0, 0x4) == 0 && Present(0x0, 0x5) == 1 && Present(0x0, 0x6) == 1 && Present(0x0, 0x7) == 0;
    assert Present(0x0, 0x8) == 1 && Present(0x0, 0x9) == 1 && Present(0x0, 0xa) == 1 && Present(0x0, 0xb) == 0;
    assert Present(0x0, 0xc) == 0 && Present(0x0, 0xd) == 1 && Present(0x0, 0xe) == 1 && Present(0x0, 0xf) == 0;
  }

  lemma RowSize1() ensures RowSize(0x1) == 8 {
    assert Present(0x1, 0x0) == 1 && Present(0x1, 0x1) == 1 && Present(0x1, 0x2) == 0 && Present(0x1, 0x3) == 0;
    assert Present(0x1, 0x4) == 0 && Present(0x1, 0x5) == 1 && Present(0x1, 0x6) == 1 && Present(0x1, 0x7) == 0;
    assert Present(0x1, 0x8) == 1 && Present(0x1, 0x9) == 1 && Present(0x1, 0xa) == 0 && Present(0x1, 0xb) == 0;
    assert Present(0x1, 0xc) == 0 && Present(0x1, 0xd) == 1 && Present(0x1, 0xe) == 1 && Present(0x1, 0xf) == 0;
  }

  lemma RowSize2() ensures RowSize(0x2) == 11 {
    assert Present(0x2, 0x0) == 1 && Present(0x2, 0x1) == 1 && Present(0x2, 0x2) == 0 && Present(0x2, 0x3) == 0;
    assert Present(0x2, 0x4) == 1 && Present(0x2, 0x5) == 1 && Present(0x2, 0x6) == 1 && Present(0x2, 0x7) == 0;
    assert Present(0x2, 0x8) == 1 && Present(0x2, 0x9) == 1 && Present(0x2, 0xa) == 1 && Present(0x2, 0xb) == 0;
    assert Present(0x2, 0xc) == 1 && Present(0x2, 0xd) == 1 && Present(0x2, 0xe) == 1 && Present(0x2, 0xf) == 0;
  }

  lemma RowSize3() ensures RowSize(0x3) == 8 {
    assert Present(0x3, 0x0) == 1 && Present(0x3, 0x1) == 1 && Present(0x3, 0x2) == 0 && Present(0x3, 0x3) == 0;
    assert Present(0x3, 0x4) == 0 && Present(0x3, 0x5) == 1 && Present(0x3, 0x6) == 1 && Present(0x3, 0x7) == 0;
    assert Present(0x3, 0x8) == 1 && Present(0x3, 0x9) == 1 && Present(0x3, 0xa) == 0 && Present(0x3, 0xb) == 0;
    assert Present(0x3, 0xc) == 0 && Present(0x3, 0xd) == 1 && Present(0x3, 0xe) == 1 && Present(0x3, 0xf) == 0;
  }

  lemma RowSize4() ensures RowSize(0x4) == 10 {
    assert Present(0x4, 0x0) == 1 && Present(0x4, 0x1) == 1 && Present(0x4, 0x2) == 0 && Present(0x4, 0x3) == 0;
    assert Present(0x4, 0x4) == 0 && Present(0x4, 0x5) == 1 && Present(0x4, 0x6) == 1 && Present(0x4, 0x7) == 0;
    assert Present(0x4, 0x8) == 1 && Present(0x4, 0x9) == 1 && Present(0x4, 0xa) == 1 && Present(0x4, 0xb) == 0;
    assert Present(0x4, 0xc) == 1 && Present(0x4, 0xd) == 1 && Present(0x4, 0xe) == 1 && Present(0x4, 0xf) == 0;
  }

  lemma RowSize5() ensures RowSize(0x5) == 8 {
    assert Present(0x5, 0x0) == 1 && Present(0x5, 0x1) == 1 && Present(0x5, 0x2) == 0 && Present(0x5, 0x3) == 0;
    assert Present(0x5, 0x4) == 0 && Present(0x5, 0x5) == 1 && Present(0x5, 0x6) == 1 && Present(0x5, 0x7) == 0;
    assert Present(0x5, 0x8) == 1 && Present(0x5, 0x9) == 1 && Present(0x5, 0xa) == 0 && Present(0x5, 0xb) == 0;
    assert Present(0x5, 0xc) == 0 && Present(0x5, 0xd) == 1 && Present(0x5, 0xe) == 1 && Present(0x5, 0xf) == 0;
  }

  lemma RowSize6() ensures RowSize(0x6) == 10 {
    assert Present(0x6, 0x0) == 1 && Present(0x6, 0x1) == 1 && Present(0x6, 0x2) == 0 && Present(0x6, 0x3) == 0;
    assert Present(0x6, 0x4) == 0 && Present(0x6, 0x5) == 1 && Present(0x6, 0x6) == 1 && Present(0x6, 0x7) == 0;
    assert Present(0x6, 0x8) == 1 && Present(0x6, 0x9) == 1 && Present(0x6, 0xa) == 1 && Present(0x6, 0xb) == 0;
    assert Present(0x6, 0xc) == 1 && Present(0x6, 0xd) == 1 && Present(0x6, 0xe) == 1 && Present(0x6, 0xf) == 0;
  }

  lemma RowSize7() ensures RowSize(0x7) == 8 {
    assert Present(0x7, 0x0) == 1 && Present(0x7, 0x1) == 1 && Present(0x7, 0x2) == 0 && Present(0x7, 0x3) == 0;
    assert Present(0x7, 0x4) == 0 && Present(0x7, 0x5) == 1 && Present(0x7, 0x6) == 1 && Present(0x7, 0x7) == 0;
    assert Present(0x7, 0x8) == 1 && Present(0x7, 0x9) == 1 && Present(0x7, 0xa) == 0 && Present(0x7, 0xb) == 0;
    assert Present(0x7, 0xc) == 0 && Present(0x7, 0xd) == 1 && Present(0x7, 0xe) == 1 && Present(0x7, 0xf) == 0;
  }

  lemma RowSize8() ensures RowSize(0x8) == 9 {
    assert Present(0x8, 0x0) == 0 && Present(0x8, 0x1) == 1 && Present(0x8, 0x2) == 0 && Present(0x8, 0x3) == 0;
    assert Present(0x8, 0x4) == 1 && Present(0x8, 0x5) == 1 && Present(0x8, 0x6) == 1 && Present(0x8, 0x7) == 0;
    assert Present(0x8, 0x8) == 1 && Present(0x8, 0x9) == 0 && Present(0x8, 0xa) == 1 && Present(0x8, 0xb) == 0;
    assert Present(0x8, 0xc) == 1 && Present(0x8, 0xd) == 1 && Present(0x8, 0xe) == 1 && Present(0x8, 0xf) == 0;
  }

  lemma RowSize9() ensures RowSize(0x9) == 9 {
    assert Present(0x9, 0x0) == 1 && Present(0x9, 0x1) == 1 && Present(0x9, 0x2) == 0 && Present(0x9, 0x3) == 0;
    assert Present(0x9, 0x4) == 1 && Present(0x9, 0x5) == 1 && Present(0x9, 0x6) == 1 && Present(0x9, 0x7) == 0;
    assert Present(0x9, 0x8) == 1 && Present(0x9, 0x9) == 1 && Present(0x9, 0xa) == 1 && Present(0x9, 0xb) == 0;
    assert Present(0x9, 0xc) == 0 && Present(0x9, 0xd) == 1 && Present(0x9, 0xe) == 0 && Present(0x9, 0xf) == 0;
  }

  lemma RowSizeA() ensures RowSize(0xa) == 12 {
    assert Present(0xa, 0x0) == 1 && Present(0xa, 0x1) == 1 && Present(0xa, 0x2) == 1 && Present(0xa, 0x3) == 0;
    assert Present(0xa, 0x4) == 1 && Present(0xa, 0x5) == 1 && Present(0xa, 0x6) == 1 && Present(0xa, 0x7) == 0;
    assert Present(0xa, 0x8) == 1 && Present(0xa, 0x9) == 1 && Present(0xa, 0xa) == 1 && Present(0xa, 0xb) == 0;
    assert Present(0xa, 0xc) == 1 && Present(0xa, 0xd) == 1 && Present(0xa, 0xe) == 1 && Present(0xa, 0xf) == 0;
  }

  lemma RowSizeB() ensures RowSize(0xb) == 11 {
    assert Present(0xb, 0x0) == 1 && Present(0xb, 0x1) == 1 && Present(0xb, 0x2) == 0 && Present(0xb, 0x3) == 0;
    assert Present(0xb, 0x4) == 1 && Present(0xb, 0x5) == 1 && Present(0xb, 0x6) == 1 && Present(0xb, 0x7) == 0;
    assert Present(0xb, 0x8) == 1 && Present(0xb, 0x9) == 1 && Present(0xb, 0xa) == 1 && Present(0xb, 0xb) == 0;
    assert Present(0xb, 0xc) == 1 && Present(0xb, 0xd) == 1 && Present(0xb, 0xe) == 1 && Present(0xb, 0xf) == 0;
  }

  lemma RowSizeC() ensures RowSize(0xc) == 11 {
    assert Present(0xc, 0x0) == 1 && Present(0xc, 0x1) == 1 && Present(0xc, 0x2) == 0 && Present(0xc, 0x3) == 0;
    assert Present(0xc, 0x4) == 1 && Present(0xc, 0x5) == 1 && Present(0xc, 0x6) == 1 && Present(0xc, 0x7) == 0;
    assert Present(0xc, 0x8) == 1 && Present(0xc, 0x9) == 1 && Present(0xc, 0xa) == 1 && Present(0xc, 0xb) == 0;
    assert Present(0xc, 0xc) == 1 && Present(0xc, 0xd) == 1 && Present(0xc, 0xe) == 1 && Present(0xc, 0xf) == 0;
  }

  lemma RowSizeD() ensures RowSize(0xd) == 8 {
    assert Present(0xd, 0x0) == 1 && Present(0xd, 0x1) == 1 && Present(0xd, 0x2) == 0 && Present(0xd, 0x3) == 0;
    assert Present(0xd, 0x4) == 0 && Present(0xd, 0x5) == 1 && Present(0xd, 0x6) == 1 && Present(0xd, 0x7) == 0;
    assert Present(0xd, 0x8) == 1 && Present(0xd, 0x9) == 1 && Present(0xd, 0xa) == 0 && Present(0xd, 0xb) == 0;
    assert Present(0xd, 0xc) == 0 && Present(0xd, 0xd) == 1 && Present(0xd, 0xe) == 1 && Present(0xd, 0xf) == 0;
  }

  lemma RowSizeE() ensures RowSize(0xe) == 11 {
    assert Present(0xe, 0x0) == 1 && Present(0xe, 0x1) == 1 && Present(0xe, 0x2) == 0 && Present(0xe, 0x3) == 0;
    assert Present(0xe, 0x4) == 1 && Present(0xe, 0x5) == 1 && Present(0xe, 0x6) == 1 && Present(0xe, 0x7) == 0;
    assert Present(0xe, 0x8) == 1 && Present(0xe, 0x9) == 1 && Present(0xe, 0xa) == 1 && Present(0xe, 0xb) == 0;
    assert Present(0xe, 0xc) == 1 && Present(0xe, 0xd) == 1 && Present(0xe, 0xe) == 1 && Present(0xe, 0xf) == 0;
  }

  lemma RowSizeF() ensures RowSize(0xf) == 8 {
    assert Present(0xf, 0x0) == 1 && Present(0xf, 0x1) == 1 && Present(0xf, 0x2) == 0 && Present(0xf, 0x3) == 0;
    assert Present(0xf, 0x4) == 0 && Present(0xf, 0x5) == 1 && Present(0xf, 0x6) == 1 && Present(0xf, 0x7) == 0;
    assert Present(0xf, 0x8) == 1 && Present(0xf, 0x9) == 1 && Present(0xf, 0xa) == 0 && Present(0xf, 0xb) == 0;
    assert Present(0xf, 0xc) == 0 && Present(0xf, 0xd) == 1 && Present(0xf, 0xe) == 1 && Present(0xf, 0xf) == 0;
  }

  lemma LowerHalf()
    ensures LowerHalfSize() == 72
  {
    RowSize0(); RowSize1(); RowSize2(); RowSize3();
    RowSize4(); RowSize5(); RowSize6(); RowSize7();
  }

  lemma UpperHalf()
    ensures UpperHalfSize() == 79
  {
    RowSize8(); RowSize9(); RowSizeA(); RowSizeB();
    RowSizeC(); RowSizeD(); RowSizeE(); RowSizeF();
  }

  /** The table holds exactly 151 entries, the documented instruction set of the NMOS 6502. */
  lemma TableSize()
    ensures EntryCount() == 151
  {
    LowerHalf();
    UpperHalf();
  }


  // ----- Structural facts about the table -----

  /** The conditional branches. */
  predicate IsBranch(m: Mnemonic) {
    m in {BPL, BMI, BVC, BVS, BCC, BCS, BNE, BEQ}
  }

  /** The instructions that set or clear one status flag. */
  predicate IsFlagInstruction(m: Mnemonic) {
    m in {CLC, SEC, CLI, SEI, CLV, CLD, SED}
  }

  /** The register transfers and the index-register increments and decrements. */
  predicate IsRegisterInstruction(m: Mnemonic) {
    m in {TAX, TXA, DEX, INX, TAY, TYA, DEY, INY}
  }

  /** The stores. */
  predicate IsStore(m: Mnemonic) {
    m in {STA, STX, STY}
  }

  /** No entry has both low bits set: on the NMOS 6502 those four columns hold
      only undocumented opcodes. */
  lemma NoUndocumentedColumn(opcode: Byte)
    ensures Lookup(opcode).Some? ==> opcode % 4 != 3
  {
  }

  /** Base cycle counts lie between 2 and 7. */
  lemma TimeInRange(opcode: Byte)
    ensures Lookup(opcode).Some? ==> 2 <= Lookup(opcode).value.time <= 7
  {
  }

  /** Relative mode is used by exactly the eight branches, each costed at 3 cycles. */
  lemma RelativeIsBranch(opcode: Byte)
    ensures Lookup(opcode).Some? ==>
      var i := Lookup(opcode).value;
      (i.mode == Relative <==> IsBranch(i.mnemonic)) && (i.mode == Relative ==> i.time == 3)
  {
  }

  /** Accumulator mode is used only by the four shifts and rotates, at 2 cycles. */
  lemma AccumulatorOnlyShifts(opcode: Byte)
    ensures (Lookup(opcode).Some? && Lookup(opcode).value.mode == Accumulator) <==> opcode in {0x0a, 0x2a, 0x4a, 0x6a}
    ensures Lookup(0x0a) == Some(Instruction(0x0a, ASL, Accumulator, 2))
    ensures Lookup(0x4a) == Some(Instruction(0x4a, LSR, Accumulator, 2))
    ensures Lookup(0x2a) == Some(Instruction(0x2a, ROL, Accumulator, 2))
    ensures Lookup(0x6a) == Some(Instruction(0x6a, ROR, Accumulator, 2))
  {
  }

  /** Indirect mode is used only by JMP at 0x6C, at 5 cycles. */
  lemma IndirectOnlyJmp(opcode: Byte)
    ensures (Lookup(opcode).Some? && Lookup(opcode).value.mode == Indirect) <==> opcode == 0x6c
    ensures Lookup(0x6c) == Some(Instruction(0x6c, JMP, Indirect, 5))
  {
  }

  /** Zero-page,Y mode is used only by LDX at 0xB6 and STX at 0x96, at 4 cycles. */
  lemma ZeroYOnlyLdxStx(opcode: Byte)
    ensures (Lookup(opcode).Some? && Lookup(opcode).value.mode == ZeroY) <==> opcode in {0x96, 0xb6}
    ensures Lookup(0xb6) == Some(Instruction(0xb6, LDX, ZeroY, 4))
    ensures Lookup(0x96) == Some(Instruction(0x96, STX, ZeroY, 4))
  {
  }

  /** Flag instructions set or clear one flag in 2 cycles, without an operand. */
  lemma FlagInstructionsImplied(opcode: Byte)
    ensures Lookup(opcode).Some? && IsFlagInstruction(Lookup(opcode).value.mnemonic) ==>
      Lookup(opcode).value.mode == Implied && Lookup(opcode).value.time == 2
  {
  }

  /** Register transfers, increments and decrements take 2 cycles, without an operand. */
  lemma RegisterInstructionsImplied(opcode: Byte)
    ensures Lookup(opcode).Some? && IsRegisterInstruction(Lookup(opcode).value.mnemonic) ==>
      Lookup(opcode).value.mode == Implied && Lookup(opcode).value.time == 2
  {
  }

  /** No store has an immediate form. */
  lemma StoresNeverImmediate(opcode: Byte)
    ensures Lookup(opcode).Some? && IsStore(Lookup(opcode).value.mnemonic) ==> Lookup(opcode).value.mode != Immediate
  {
  }

  /** Every mnemonic has at least one entry: this is one of its opcodes. */
  function SomeOpcodeFor(m: Mnemonic): (opcode: Byte)
    ensures Lookup(opcode).Some? && Lookup(opcode).value.mnemonic == m
  {
    match m
    case ADC => 0x69
    case AND => 0x29
    case ASL => 0x0a
    case BIT => 0x24
    case BPL => 0x10
    case BMI => 0x30
    case BVC => 0x50
    case BVS => 0x70
    case BCC => 0x90
    case BCS => 0xb0
    case BNE => 0xd0
    case BEQ => 0xf0
    case BRK => 0x00
    case CMP => 0xc9
    case CPX => 0xe0
    case CPY => 0xc0
    case DEC => 0xc6
    case EOR => 0x49
    case CLC => 0x18
    case SEC => 0x38
    case CLI => 0x58
    case SEI => 0x78
    case CLV => 0xb8
    case CLD => 0xd8
    case SED => 0xf8
    case INC => 0xe6
    case JMP => 0x4c
    case JSR => 0x20
    case LDA => 0xa9
    case LDX => 0xa2
    case LDY => 0xa0
    case LSR => 0x4a
    case NOP => 0xea
    case ORA => 0x09
    case TAX => 0xaa
    case TXA => 0x8a
    case DEX => 0xca
    case INX => 0xe8
    case TAY => 0xa8
    case TYA => 0x98
    case DEY => 0x88
    case INY => 0xc8
    case ROL => 0x2a
    case ROR => 0x6a
    case RTI => 0x40
    case RTS => 0x60
    case SBC => 0xe9
    case STA => 0x85
    case TXS => 0x9a
    case TSX => 0xba
    case PHA => 0x48
    case PLA => 0x68
    case PHP => 0x08
    case PLP => 0x28
    case STX => 0x86
    case STY => 0x84
  }
}
